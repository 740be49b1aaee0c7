/**
 * The transaction record shared by every other module, the attribute keys
 * of the persisted transaction entity, and the key-value view of a
 * persisted transaction.
 *
 * Dates are integer timestamps and amounts are integer cents.
 */
module Transactions {
  import opened Wrappers

  /** The five keys of the persisted transaction entity (`TransactionAttributes`). */
  datatype Attribute = Date | Category | Amount | Vendor | Owner

  /** Every key, in declaration order. */
  const AllAttributes: seq<Attribute> := [Date, Category, Amount, Vendor, Owner]

  /** The raw string of a key, as used in key-value access, predicates and sort descriptors. */
  function RawValue(a: Attribute): string
  {
    match a
    case Date => "date"
    case Category => "category"
    case Amount => "amount"
    case Vendor => "vendor"
    case Owner => "owner"
  }

  /** The key whose raw string is `s`, if there is one. */
  function ParseAttribute(s: string): (r: Option<Attribute>)
    ensures r.Some? ==> RawValue(r.value) == s
  {
    if s == "date" then Some(Date)
    else if s == "category" then Some(Category)
    else if s == "amount" then Some(Amount)
    else if s == "vendor" then Some(Vendor)
    else if s == "owner" then Some(Owner)
    else None
  }

  /** Parsing the raw string of a key gives the key back. */
  lemma ParseRawValue(a: Attribute)
    ensures ParseAttribute(RawValue(a)) == Some(a)
  {
  }

  /** The enumeration has exactly five keys and their raw strings are pairwise different. */
  lemma AttributesAreFiveDistinctKeys()
    ensures |AllAttributes| == 5
    ensures forall a: Attribute :: a in AllAttributes
    ensures forall i, j :: 0 <= i < j < |AllAttributes| ==> RawValue(AllAttributes[i]) != RawValue(AllAttributes[j])
  {
    forall a: Attribute ensures a in AllAttributes {
      match a
      case Date => assert AllAttributes[0] == a;
      case Category => assert AllAttributes[1] == a;
      case Amount => assert AllAttributes[2] == a;
      case Vendor => assert AllAttributes[3] == a;
      case Owner => assert AllAttributes[4] == a;
    }
  }

  /**
   * A transaction as the detail form and the chart see it (`TransactionData`).
   * It carries no owner: the owner is stamped on when the record is persisted.
   */
  datatype Transaction = Transaction(date: int, category: string, amount: int, vendor: string)

  /** A persisted transaction object: the record plus the owner it was saved under. */
  datatype StoredTransaction = StoredTransaction(record: Transaction, owner: string)

  /** The value kinds a key can hold. */
  datatype Value = DateValue(date: int) | AmountValue(amount: int) | TextValue(text: string)

  /** Key-value access to a persisted transaction (`value(forKey:)`). */
  function ValueForKey(s: StoredTransaction, key: Attribute): (v: Value)
    ensures key == Date <==> v.DateValue?
    ensures key == Amount <==> v.AmountValue?
  {
    match key
    case Date => DateValue(s.record.date)
    case Category => TextValue(s.record.category)
    case Amount => AmountValue(s.record.amount)
    case Vendor => TextValue(s.record.vendor)
    case Owner => TextValue(s.owner)
  }

  /** Reading back the four record keys of a persisted transaction rebuilds its record. */
  lemma RecordFromKeys(s: StoredTransaction)
    ensures Transaction(ValueForKey(s, Date).date, ValueForKey(s, Category).text,
                        ValueForKey(s, Amount).amount, ValueForKey(s, Vendor).text) == s.record
    ensures ValueForKey(s, Owner) == TextValue(s.owner)
  {
  }

  /** Key-value write to a persisted transaction (`setValue(_:forKey:)`); the value must be of the key's kind. */
  function SetValue(s: StoredTransaction, key: Attribute, v: Value): (r: StoredTransaction)
    requires key == Date <==> v.DateValue?
    requires key == Amount <==> v.AmountValue?
    ensures ValueForKey(r, key) == v
    ensures forall k :: k != key ==> ValueForKey(r, k) == ValueForKey(s, k)
  {
    match key
    case Date => s.(record := s.record.(date := v.date))
    case Category => s.(record := s.record.(category := v.text))
    case Amount => s.(record := s.record.(amount := v.amount))
    case Vendor => s.(record := s.record.(vendor := v.text))
    case Owner => s.(owner := v.text)
  }

  /**
   * In this value representation a persisted transaction is nothing but what
   * its five keys read, so a run of key writes is pinned down by the values
   * read back afterwards.
   */
  lemma SameKeysSameObject(s: StoredTransaction, u: StoredTransaction)
    requires forall k :: ValueForKey(s, k) == ValueForKey(u, k)
    ensures s == u
  {
    assert ValueForKey(s, Date) == ValueForKey(u, Date);
    assert ValueForKey(s, Category) == ValueForKey(u, Category);
    assert ValueForKey(s, Amount) == ValueForKey(u, Amount);
    assert ValueForKey(s, Vendor) == ValueForKey(u, Vendor);
    assert ValueForKey(s, Owner) == ValueForKey(u, Owner);
  }
}
