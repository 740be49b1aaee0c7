/**
 * The list logic of the main window (`ViewController`): the eight sort
 * comparators and the sort dispatch on a column's sort descriptor, the
 * field-by-field edit of the selected row, and the owner-stamped append of
 * a new transaction. The managed-object context, its save and the table
 * view are outside the model; a save appears as a boolean outcome.
 */
module TransactionList {
  import opened Wrappers
  import opened Text
  import opened Transactions

  /** The part of the window's state the list operations read and write. */
  datatype ViewState = ViewState(
    transactions: seq<StoredTransaction>,
    transactionsOwner: string,
    selectedRowForEdit: int,
    hasContext: bool,
    hasEntity: bool)

  /* ---------------- Comparators ---------------- */

  /** The eight `sortTransactionBy*` functions. */
  datatype Comparator =
    | DateAscending | DateDescending
    | CategoryAscending | CategoryDescending
    | AmountAscending | AmountDescending
    | VendorAscending | VendorDescending

  /**
   * Whether comparator `cmp` puts `a` before `b`. The amount pair is
   * reversed relative to its names: "ascending" puts the larger amount first.
   */
  predicate InOrder(cmp: Comparator, a: StoredTransaction, b: StoredTransaction)
  {
    match cmp
    case DateAscending => a.record.date < b.record.date
    case DateDescending => a.record.date > b.record.date
    case CategoryAscending => LexLess(a.record.category, b.record.category)
    case CategoryDescending => LexLess(b.record.category, a.record.category)
    case AmountAscending => a.record.amount > b.record.amount
    case AmountDescending => a.record.amount < b.record.amount
    case VendorAscending => LexLess(a.record.vendor, b.record.vendor)
    case VendorDescending => LexLess(b.record.vendor, a.record.vendor)
  }

  /** The key a comparator's name refers to. */
  function SortedKey(cmp: Comparator): Attribute
  {
    match cmp
    case DateAscending | DateDescending => Date
    case CategoryAscending | CategoryDescending => Category
    case AmountAscending | AmountDescending => Amount
    case VendorAscending | VendorDescending => Vendor
  }

  /** Whether a comparator's name says "Ascending". */
  predicate NamedAscending(cmp: Comparator)
  {
    cmp in {DateAscending, CategoryAscending, AmountAscending, VendorAscending}
  }

  /**
   * The comparator the sort dispatch picks for a descriptor: one for each of
   * the four record keys, by the descriptor's direction, and none for any
   * other key (the owner key included).
   */
  function ComparatorFor(key: string, ascending: bool): (r: Option<Comparator>)
    ensures r.Some? <==> ParseAttribute(key) in {Some(Date), Some(Category), Some(Amount), Some(Vendor)}
    ensures r.Some? ==> RawValue(SortedKey(r.value)) == key && (NamedAscending(r.value) <==> ascending)
  {
    if key == RawValue(Date) then Some(if ascending then DateAscending else DateDescending)
    else if key == RawValue(Category) then Some(if ascending then CategoryAscending else CategoryDescending)
    else if key == RawValue(Amount) then Some(if ascending then AmountAscending else AmountDescending)
    else if key == RawValue(Vendor) then Some(if ascending then VendorAscending else VendorDescending)
    else None
  }

  /** The two directions on one key are each other's mirror image. */
  lemma DescendingMirrorsAscending(cmp: Comparator, a: StoredTransaction, b: StoredTransaction)
    requires NamedAscending(cmp)
    ensures InOrder(cmp, a, b) <==> InOrder(Mirror(cmp), b, a)
    ensures SortedKey(Mirror(cmp)) == SortedKey(cmp) && !NamedAscending(Mirror(cmp))
  {
  }

  function Mirror(cmp: Comparator): Comparator
  {
    match cmp
    case DateAscending => DateDescending
    case DateDescending => DateAscending
    case CategoryAscending => CategoryDescending
    case CategoryDescending => CategoryAscending
    case AmountAscending => AmountDescending
    case AmountDescending => AmountAscending
    case VendorAscending => VendorDescending
    case VendorDescending => VendorAscending
  }

  lemma InOrderAsymmetric(cmp: Comparator, a: StoredTransaction, b: StoredTransaction)
    requires InOrder(cmp, a, b)
    ensures !InOrder(cmp, b, a)
  {
    match cmp
    case CategoryAscending => LexLessAsymmetric(a.record.category, b.record.category);
    case CategoryDescending => LexLessAsymmetric(b.record.category, a.record.category);
    case VendorAscending => LexLessAsymmetric(a.record.vendor, b.record.vendor);
    case VendorDescending => LexLessAsymmetric(b.record.vendor, a.record.vendor);
    case _ =>
  }

  /** "Not before" is transitive: each comparator is a strict weak order. */
  lemma NotBeforeTransitive(cmp: Comparator, a: StoredTransaction, b: StoredTransaction, c: StoredTransaction)
    requires !InOrder(cmp, b, a) && !InOrder(cmp, c, b)
    ensures !InOrder(cmp, c, a)
  {
    match cmp
    case CategoryAscending => LexNotBeforeTransitive(a.record.category, b.record.category, c.record.category);
    case CategoryDescending => LexNotBeforeTransitive(c.record.category, b.record.category, a.record.category);
    case VendorAscending => LexNotBeforeTransitive(a.record.vendor, b.record.vendor, c.record.vendor);
    case VendorDescending => LexNotBeforeTransitive(c.record.vendor, b.record.vendor, a.record.vendor);
    case _ =>
  }

  lemma LexNotBeforeTransitive(x: string, y: string, z: string)
    requires !LexLess(y, x) && !LexLess(z, y)
    ensures !LexLess(z, x)
  {
    if LexLess(z, x) {
      if x == y {
      } else {
        LexLessConnected(x, y);
        LexLessTransitive(z, x, y);
      }
    }
  }

  /* ---------------- Sorting ---------------- */

  /** No element is put strictly before one that precedes it in the list. */
  predicate SortedBy(cmp: Comparator, s: seq<StoredTransaction>)
  {
    forall i, j :: 0 <= i < j < |s| ==> !InOrder(cmp, s[j], s[i])
  }

  /** `x` placed in sorted `s`: before the first element it does not follow. */
  function Insert(cmp: Comparator, x: StoredTransaction, s: seq<StoredTransaction>): (r: seq<StoredTransaction>)
    requires SortedBy(cmp, s)
    ensures SortedBy(cmp, r)
    ensures multiset(r) == multiset(s) + multiset{x}
    decreases |s|
  {
    if |s| == 0 then [x]
    else if !InOrder(cmp, s[0], x) then
      InsertFrontSorted(cmp, x, s);
      [x] + s
    else
      var rest := Insert(cmp, x, s[1..]);
      assert s == [s[0]] + s[1..];
      InsertBehindSorted(cmp, x, s, rest);
      [s[0]] + rest
  }

  lemma InsertFrontSorted(cmp: Comparator, x: StoredTransaction, s: seq<StoredTransaction>)
    requires SortedBy(cmp, s) && |s| > 0 && !InOrder(cmp, s[0], x)
    ensures SortedBy(cmp, [x] + s)
  {
    var r := [x] + s;
    forall i, j | 0 <= i < j < |r| ensures !InOrder(cmp, r[j], r[i]) {
      if i == 0 && j > 1 {
        NotBeforeTransitive(cmp, x, s[0], s[j - 1]);
      }
    }
  }

  lemma InsertBehindSorted(cmp: Comparator, x: StoredTransaction, s: seq<StoredTransaction>, rest: seq<StoredTransaction>)
    requires SortedBy(cmp, s) && |s| > 0 && InOrder(cmp, s[0], x)
    requires SortedBy(cmp, rest) && multiset(rest) == multiset(s[1..]) + multiset{x}
    ensures SortedBy(cmp, [s[0]] + rest)
  {
    var r := [s[0]] + rest;
    forall j | 0 < j < |r| ensures !InOrder(cmp, r[j], s[0]) {
      assert r[j] == rest[j - 1];
      assert rest[j - 1] in multiset(rest);
      if r[j] == x {
        InOrderAsymmetric(cmp, s[0], x);
      } else {
        assert r[j] in multiset(s[1..]);
        var k :| 0 <= k < |s[1..]| && s[1..][k] == r[j];
        assert s[k + 1] == r[j];
      }
    }
  }

  /**
   * `transactions.sort(by:)`: the result holds the same transactions, and no
   * transaction stands behind one the comparator puts after it. Swift's sort
   * is not stable, so the order among ties is left open.
   */
  method Sort(cmp: Comparator, s: seq<StoredTransaction>) returns (r: seq<StoredTransaction>)
    ensures multiset(r) == multiset(s)
    ensures SortedBy(cmp, r)
  {
    r := [];
    var i := 0;
    while i < |s|
      invariant 0 <= i <= |s|
      invariant SortedBy(cmp, r)
      invariant multiset(r) == multiset(s[..i])
    {
      assert s[..i + 1] == s[..i] + [s[i]];
      r := Insert(cmp, s[i], r);
      i := i + 1;
    }
    assert s[..i] == s;
  }

  /** A column's sort descriptor (`NSSortDescriptor`): the key and the direction. */
  datatype SortDescriptor = SortDescriptor(key: string, ascending: bool)

  /**
   * `tableView(_:sortDescriptorsDidChange:)`: with no descriptor nothing
   * changes; the first descriptor picks a comparator and the list is sorted
   * by it; a key the dispatch does not know leaves the list as it was.
   */
  method SortDescriptorsDidChange(vs: ViewState, descriptors: seq<SortDescriptor>) returns (r: ViewState)
    ensures |descriptors| == 0 ==> r == vs
    ensures |descriptors| > 0 && ComparatorFor(descriptors[0].key, descriptors[0].ascending).None? ==> r == vs
    ensures |descriptors| > 0 && ComparatorFor(descriptors[0].key, descriptors[0].ascending).Some? ==>
      && r == vs.(transactions := r.transactions)
      && multiset(r.transactions) == multiset(vs.transactions)
      && SortedBy(ComparatorFor(descriptors[0].key, descriptors[0].ascending).value, r.transactions)
  {
    if |descriptors| == 0 {
      return vs;
    }
    var sortDescriptor := descriptors[0];
    match ComparatorFor(sortDescriptor.key, sortDescriptor.ascending)
    case None =>
      r := vs;
    case Some(cmp) =>
      var sorted := Sort(cmp, vs.transactions);
      r := vs.(transactions := sorted);
  }

  /** The key order a sorted list shows, read off the fields: ties may stand either way. */
  predicate FieldsInOrder(cmp: Comparator, a: StoredTransaction, b: StoredTransaction)
  {
    match SortedKey(cmp)
    case Date => if NamedAscending(cmp) then a.record.date <= b.record.date else a.record.date >= b.record.date
    case Amount => if NamedAscending(cmp) then a.record.amount >= b.record.amount else a.record.amount <= b.record.amount
    case Category =>
      var (x, y) := if NamedAscending(cmp) then (a.record.category, b.record.category) else (b.record.category, a.record.category);
      x == y || LexLess(x, y)
    case Vendor =>
      var (x, y) := if NamedAscending(cmp) then (a.record.vendor, b.record.vendor) else (b.record.vendor, a.record.vendor);
      x == y || LexLess(x, y)
    case Owner => true
  }

  /**
   * What a sorted list looks like field by field: dates and texts go up for
   * "ascending" and down for "descending", while amounts go down for
   * "ascending" and up for "descending".
   */
  lemma SortedFieldOrder(cmp: Comparator, s: seq<StoredTransaction>, i: int, j: int)
    requires SortedBy(cmp, s) && 0 <= i < j < |s|
    ensures FieldsInOrder(cmp, s[i], s[j])
  {
    assert !InOrder(cmp, s[j], s[i]);
    var a, b := s[i].record, s[j].record;
    match cmp
    case CategoryAscending => if a.category != b.category { LexLessConnected(a.category, b.category); }
    case CategoryDescending => if a.category != b.category { LexLessConnected(a.category, b.category); }
    case VendorAscending => if a.vendor != b.vendor { LexLessConnected(a.vendor, b.vendor); }
    case VendorDescending => if a.vendor != b.vendor { LexLessConnected(a.vendor, b.vendor); }
    case _ =>
  }

  /** Sorting by the amount column's "ascending" descriptor puts the largest amount first. */
  lemma AmountAscendingPutsLargestFirst(s: seq<StoredTransaction>, descriptors: seq<SortDescriptor>, i: int)
    requires |descriptors| > 0 && descriptors[0] == SortDescriptor(RawValue(Amount), true)
    requires SortedBy(ComparatorFor(descriptors[0].key, descriptors[0].ascending).value, s)
    requires 0 < i < |s|
    ensures s[0].record.amount >= s[i].record.amount
  {
    SortedFieldOrder(AmountAscending, s, 0, i);
  }

  /* ---------------- Editing ---------------- */

  /**
   * `editTransaction`: with no row selected nothing happens. Otherwise the
   * selection is cleared on every path; without a context nothing else
   * changes; with one, each of the four record keys whose stored value
   * differs from the edited record is written, in key order, the owner is
   * never written, and `updatedValues` reports whether anything was written.
   * The save that follows a write does not change the list.
   */
  method EditTransaction(vs: ViewState, t: Transaction)
    returns (r: ViewState, written: seq<Attribute>, updatedValues: bool)
    requires vs.selectedRowForEdit < 0 || !vs.hasContext || vs.selectedRowForEdit < |vs.transactions|
    ensures vs.selectedRowForEdit < 0 ==> r == vs && written == [] && !updatedValues
    ensures vs.selectedRowForEdit >= 0 ==> r.selectedRowForEdit == -1
    ensures vs.selectedRowForEdit >= 0 && !vs.hasContext ==>
      r == vs.(selectedRowForEdit := -1) && written == [] && !updatedValues
    ensures vs.selectedRowForEdit >= 0 && vs.hasContext ==>
      var row := vs.selectedRowForEdit;
      var stored := vs.transactions[row];
      && r == vs.(selectedRowForEdit := -1, transactions := vs.transactions[row := StoredTransaction(t, stored.owner)])
      && (forall k :: k in written <==> ValueForKey(stored, k) != ValueForKey(StoredTransaction(t, stored.owner), k))
      && Owner !in written
      && (updatedValues <==> stored.record != t)
  {
    if vs.selectedRowForEdit < 0 {
      return vs, [], false;
    }
    if !vs.hasContext {
      return vs.(selectedRowForEdit := -1), [], false;
    }
    var row := vs.selectedRowForEdit;
    var transactionInTable := vs.transactions[row];
    var stored := transactionInTable;
    var inTable := stored.record;
    written := [];
    updatedValues := false;
    if t.date != inTable.date {
      transactionInTable := SetValue(transactionInTable, Date, DateValue(t.date));
      written := written + [Date];
      updatedValues := true;
    }
    if t.category != inTable.category {
      transactionInTable := SetValue(transactionInTable, Category, TextValue(t.category));
      written := written + [Category];
      updatedValues := true;
    }
    if t.amount != inTable.amount {
      transactionInTable := SetValue(transactionInTable, Amount, AmountValue(t.amount));
      written := written + [Amount];
      updatedValues := true;
    }
    if t.vendor != inTable.vendor {
      transactionInTable := SetValue(transactionInTable, Vendor, TextValue(t.vendor));
      written := written + [Vendor];
      updatedValues := true;
    }
    SameKeysSameObject(transactionInTable, StoredTransaction(t, stored.owner));
    r := vs.(selectedRowForEdit := -1, transactions := vs.transactions[row := transactionInTable]);
  }

  /* ---------------- Adding ---------------- */

  /** A freshly inserted managed object, before any key is written. */
  const BlankObject: StoredTransaction := StoredTransaction(Transaction(0, "", 0, ""), "")

  /**
   * `addNewTransaction`: without a context or an entity description nothing
   * happens. Otherwise a new object receives the record's four values and the
   * window's owner, and it joins the end of the list only when the save
   * succeeds; a failed save leaves the list as it was.
   */
  method AddNewTransaction(vs: ViewState, t: Transaction, saveSucceeds: bool)
    returns (r: ViewState, inserted: Option<StoredTransaction>)
    ensures !vs.hasContext || !vs.hasEntity ==> r == vs && inserted.None?
    ensures vs.hasContext && vs.hasEntity ==> inserted == Some(StoredTransaction(t, vs.transactionsOwner))
    ensures vs.hasContext && vs.hasEntity && saveSucceeds ==>
      r == vs.(transactions := vs.transactions + [inserted.value])
    ensures !saveSucceeds ==> r == vs
  {
    if !vs.hasContext || !vs.hasEntity {
      return vs, None;
    }
    var transactionToAdd := BlankObject;
    transactionToAdd := SetValue(transactionToAdd, Date, DateValue(t.date));
    transactionToAdd := SetValue(transactionToAdd, Category, TextValue(t.category));
    transactionToAdd := SetValue(transactionToAdd, Amount, AmountValue(t.amount));
    transactionToAdd := SetValue(transactionToAdd, Vendor, TextValue(t.vendor));
    transactionToAdd := SetValue(transactionToAdd, Owner, TextValue(vs.transactionsOwner));
    SameKeysSameObject(transactionToAdd, StoredTransaction(t, vs.transactionsOwner));
    inserted := Some(transactionToAdd);
    if saveSucceeds {
      r := vs.(transactions := vs.transactions + [transactionToAdd]);
    } else {
      r := vs;
    }
  }
}
