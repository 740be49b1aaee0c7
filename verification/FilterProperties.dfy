/**
 * Properties of the filter: the built predicate text is the rendering of
 * the clause list, the clause list means the per-field rules, when no
 * predicate is produced, where the owner clause goes, and how placeholders
 * line up with arguments.
 */
module FilterProperties {
  import opened Wrappers
  import opened Text
  import opened Transactions
  import opened Filter

  /* ---------------- Builder and clause list agree ---------------- */

  lemma AppendClausesSnoc(p: PredicateText, cs: seq<Clause>, c: Clause)
    ensures AppendClauses(p, cs + [c]) == AppendClause(AppendClauses(p, cs), Fragment(c), ClauseArguments(c))
  {
    var s := cs + [c];
    assert s[..|s| - 1] == cs;
    assert s[|s| - 1] == c;
  }

  lemma {:induction false} AppendClausesConcat(p: PredicateText, a: seq<Clause>, b: seq<Clause>)
    ensures AppendClauses(p, a + b) == AppendClauses(AppendClauses(p, a), b)
    decreases |b|
  {
    if |b| == 0 {
      assert a + b == a;
    } else {
      var b', x := b[..|b| - 1], b[|b| - 1];
      assert b == b' + [x];
      assert a + b == (a + b') + [x];
      AppendClausesSnoc(p, a + b', x);
      AppendClausesConcat(p, a, b');
      AppendClausesSnoc(AppendClauses(p, a), b', x);
    }
  }

  /** Two appends in a row are one append of the joined fragment. */
  lemma AppendClauseTwice(p: PredicateText, f1: string, a1: seq<Argument>, f2: string, a2: seq<Argument>)
    requires f1 != ""
    ensures AppendClause(AppendClause(p, f1, a1), f2, a2) == AppendClause(p, f1 + Conjunction + f2, a1 + a2)
  {
    var sep := if p.format != "" then Conjunction else "";
    assert (p.format + sep + f1) + Conjunction + f2 == p.format + sep + (f1 + Conjunction + f2);
    assert (p.arguments + a1) + a2 == p.arguments + (a1 + a2);
  }

  lemma DateBetweenFragment(lo: int, hi: int)
    ensures Fragment(Compare(Date, AtLeast, DateValue(lo))) + Conjunction + Fragment(Compare(Date, AtMost, DateValue(hi)))
         == "%K >= %@ AND %K <= %@"
  {
  }

  lemma AmountFragments(c: Clause)
    requires c.Compare? && c.op in {EqualTo, Above, Below}
    ensures c.op == EqualTo ==> Fragment(c) == "%K == %@"
    ensures c.op == Above ==> Fragment(c) == "%K > %@"
    ensures c.op == Below ==> Fragment(c) == "%K < %@"
  {
  }

  lemma WithinFragment(c: Clause)
    requires c.Within?
    ensures Fragment(c) == "%K BETWEEN {%@, %@}"
  {
  }

  lemma TextFragments(c: Clause)
    requires c.Compare? && c.op in {EqualTo, ContainsFolded}
    ensures c.op == EqualTo ==> Fragment(c) == "%K == %@"
    ensures c.op == ContainsFolded ==> Fragment(c) == "%K CONTAINS[cd] %@"
  {
  }

  lemma AppendOne(p: PredicateText, c: Clause)
    ensures AppendClauses(p, [c]) == AppendClause(p, Fragment(c), ClauseArguments(c))
  {
    assert [c][..0] == [];
    assert AppendClauses(p, [c][..0]) == p;
  }

  lemma AppendTwo(p: PredicateText, c1: Clause, c2: Clause)
    ensures AppendClauses(p, [c1, c2])
         == AppendClause(AppendClause(p, Fragment(c1), ClauseArguments(c1)), Fragment(c2), ClauseArguments(c2))
  {
    assert [c1, c2][..1] == [c1];
    AppendOne(p, c1);
  }

  lemma DateStep(p: PredicateText, f: FilterData)
    ensures AddDateClause(p, f) == AppendClauses(p, DateClauses(f))
  {
    var o := f.dateFilterOption;
    if o == BetweenOption {
      var c1 := Compare(Date, AtLeast, DateValue(f.startDate));
      var c2 := Compare(Date, AtMost, DateValue(f.endDate));
      assert DateClauses(f) == [c1, c2];
      AppendTwo(p, c1, c2);
      AppendClauseTwice(p, Fragment(c1), ClauseArguments(c1), Fragment(c2), ClauseArguments(c2));
      DateBetweenFragment(f.startDate, f.endDate);
      assert ClauseArguments(c1) + ClauseArguments(c2) == DateKeyValue(f.startDate) + DateKeyValue(f.endDate);
    } else if o == BeforeOption || o == AfterOption {
      AppendOne(p, DateClauses(f)[0]);
    }
  }

  lemma TextStep(p: PredicateText, option: string, key: Attribute, text: string)
    ensures AddTextClause(p, option, key, text) == AppendClauses(p, TextClauses(option, key, text))
  {
    if option == EqualsOption {
      var c := Compare(key, EqualTo, TextValue(text));
      AppendOne(p, c);
      TextFragments(c);
    } else if option == ContainsOption {
      var c := Compare(key, ContainsFolded, TextValue(text));
      AppendOne(p, c);
      TextFragments(c);
    }
  }

  lemma AmountStep(p: PredicateText, f: FilterData)
    ensures AddAmountClause(p, f) == AppendClauses(p, AmountClauses(f))
  {
    var o := f.amountFilterOption;
    if o in FilterNumberOptions[1..] {
      var c := AmountClauses(f)[0];
      assert AmountClauses(f) == [c];
      AppendOne(p, c);
      if o == BetweenOption {
        WithinFragment(c);
      } else {
        AmountFragments(c);
      }
    }
  }

  lemma {:induction false} AppendClausesFormatEmpty(p: PredicateText, cs: seq<Clause>)
    ensures AppendClauses(p, cs).format == "" <==> p.format == "" && cs == []
    decreases |cs|
  {
    if |cs| > 0 {
      AppendClausesFormatEmpty(p, cs[..|cs| - 1]);
      var c := cs[|cs| - 1];
      assert Fragment(c)[0] == '%';
    }
  }

  lemma FieldPredicateRendersFieldClauses(f: FilterData)
    ensures FieldPredicate(f) == Render(FieldClauses(f))
  {
    var d := DateClauses(f);
    var c := TextClauses(f.categoryFilterOption, Category, f.categoryText);
    var a := AmountClauses(f);
    var v := TextClauses(f.vendorFilterOption, Vendor, f.vendorText);
    DateStep(EmptyPredicate, f);
    var p0 := AppendClauses(EmptyPredicate, d);
    TextStep(p0, f.categoryFilterOption, Category, f.categoryText);
    AppendClausesConcat(EmptyPredicate, d, c);
    var p1 := AppendClauses(EmptyPredicate, d + c);
    AmountStep(p1, f);
    AppendClausesConcat(EmptyPredicate, d + c, a);
    var p2 := AppendClauses(EmptyPredicate, d + c + a);
    TextStep(p2, f.vendorFilterOption, Vendor, f.vendorText);
    AppendClausesConcat(EmptyPredicate, d + c + a, v);
  }

  lemma FinishRendersWithOwner(fields: seq<Clause>, owner: string)
    ensures FinishPredicate(Render(fields), owner)
         == (if WithOwner(fields, owner).Some? then Some(Render(WithOwner(fields, owner).value)) else None)
  {
    AppendClausesFormatEmpty(EmptyPredicate, fields);
    if fields != [] && owner != "" {
      RenderWithOwnerClause(fields, owner);
    } else if fields != [] {
      assert fields + [] == fields;
    }
  }

  lemma RenderWithOwnerClause(fields: seq<Clause>, owner: string)
    ensures Render(fields + [OwnerClause(owner)])
         == AppendClause(Render(fields), "%K == %@", [KeyArgument(Owner), ValueArgument(TextValue(owner))])
  {
    AppendClausesSnoc(EmptyPredicate, fields, OwnerClause(owner));
    OwnerFragment(owner);
  }

  lemma OwnerFragment(owner: string)
    ensures Fragment(OwnerClause(owner)) == "%K == %@"
    ensures ClauseArguments(OwnerClause(owner)) == [KeyArgument(Owner), ValueArgument(TextValue(owner))]
  {
  }

  /**
   * The predicate text built by the source is exactly the rendering of the
   * clause list; both are absent together.
   */
  lemma CreatePredicateRendersClauses(f: FilterData, owner: string)
    ensures CreatePredicate(f, owner)
         == (if Clauses(f, owner).Some? then Some(Render(Clauses(f, owner).value)) else None)
  {
    FieldPredicateRendersFieldClauses(f);
    FinishRendersWithOwner(FieldClauses(f), owner);
  }

  /* ---------------- When no predicate is produced ---------------- */

  lemma ClausesPresentIffActive(f: FilterData, owner: string)
    ensures Clauses(f, owner).Some? <==> IsActive(f)
  {
  }

  /**
   * With every option `none` or a string naming no case, there is no predicate,
   * whatever the owner.
   */
  lemma InactiveFilterGivesNil(f: FilterData, owner: string)
    requires !IsActive(f)
    ensures CreatePredicate(f, owner) == None
  {
    ClausesPresentIffActive(f, owner);
    assert Clauses(f, owner).None?;
    CreatePredicateRendersClauses(f, owner);
  }

  /** An option string that names no case contributes exactly what `none` contributes. */
  lemma UnrecognisedOptionActsAsNone(f: FilterData, owner: string, s: string)
    ensures s !in FilterDateOptions ==>
      CreatePredicate(f.(dateFilterOption := s), owner)
      == CreatePredicate(f.(dateFilterOption := NoneOption), owner)
    ensures s !in FilterStringOptions ==>
      CreatePredicate(f.(categoryFilterOption := s), owner)
      == CreatePredicate(f.(categoryFilterOption := NoneOption), owner)
    ensures s !in FilterNumberOptions ==>
      CreatePredicate(f.(amountFilterOption := s), owner)
      == CreatePredicate(f.(amountFilterOption := NoneOption), owner)
    ensures s !in FilterStringOptions ==>
      CreatePredicate(f.(vendorFilterOption := s), owner)
      == CreatePredicate(f.(vendorFilterOption := NoneOption), owner)
  {
    if s !in FilterDateOptions {
      UnrecognisedDateOption(f, s);
      SameFieldClausesSamePredicate(f.(dateFilterOption := s), f.(dateFilterOption := NoneOption), owner);
    }
    if s !in FilterStringOptions {
      UnrecognisedTextOptions(f, s);
      SameFieldClausesSamePredicate(f.(categoryFilterOption := s), f.(categoryFilterOption := NoneOption), owner);
      SameFieldClausesSamePredicate(f.(vendorFilterOption := s), f.(vendorFilterOption := NoneOption), owner);
    }
    if s !in FilterNumberOptions {
      UnrecognisedAmountOption(f, s);
      SameFieldClausesSamePredicate(f.(amountFilterOption := s), f.(amountFilterOption := NoneOption), owner);
    }
  }

  lemma UnrecognisedDateOption(f: FilterData, s: string)
    requires s !in FilterDateOptions
    ensures FieldClauses(f.(dateFilterOption := s)) == FieldClauses(f.(dateFilterOption := NoneOption))
  {
    assert DateClauses(f.(dateFilterOption := s)) == [] == DateClauses(f.(dateFilterOption := NoneOption));
  }

  lemma UnrecognisedTextOptions(f: FilterData, s: string)
    requires s !in FilterStringOptions
    ensures FieldClauses(f.(categoryFilterOption := s)) == FieldClauses(f.(categoryFilterOption := NoneOption))
    ensures FieldClauses(f.(vendorFilterOption := s)) == FieldClauses(f.(vendorFilterOption := NoneOption))
  {
    assert TextClauses(s, Category, f.categoryText) == [] == TextClauses(NoneOption, Category, f.categoryText);
    assert TextClauses(s, Vendor, f.vendorText) == [] == TextClauses(NoneOption, Vendor, f.vendorText);
  }

  lemma UnrecognisedAmountOption(f: FilterData, s: string)
    requires s !in FilterNumberOptions
    ensures FieldClauses(f.(amountFilterOption := s)) == FieldClauses(f.(amountFilterOption := NoneOption))
  {
    assert AmountClauses(f.(amountFilterOption := s)) == [] == AmountClauses(f.(amountFilterOption := NoneOption));
  }

  lemma SameFieldClausesSamePredicate(g: FilterData, h: FilterData, owner: string)
    requires FieldClauses(g) == FieldClauses(h)
    ensures CreatePredicate(g, owner) == CreatePredicate(h, owner)
  {
    CreatePredicateRendersClauses(g, owner);
    CreatePredicateRendersClauses(h, owner);
  }

  /* ---------------- Order and the owner clause ---------------- */

  function Rank(a: Attribute): nat
  {
    match a
    case Date => 0
    case Category => 1
    case Amount => 2
    case Vendor => 3
    case Owner => 4
  }

  /**
   * Conditions come in the fixed order date, category, amount, vendor, owner;
   * the owner condition is present exactly when the owner is non-empty, and
   * then it is last.
   */
  lemma ClauseOrderAndOwner(f: FilterData, owner: string)
    requires Clauses(f, owner).Some?
    ensures var cs := Clauses(f, owner).value;
      && (forall i, j :: 0 <= i < j < |cs| ==> Rank(cs[i].key) <= Rank(cs[j].key))
      && (OwnerClause(owner) in cs <==> owner != "")
      && (owner != "" ==> cs[|cs| - 1] == OwnerClause(owner))
      && (forall i :: 0 <= i < |cs| && cs[i].key == Owner ==> i == |cs| - 1 && owner != "")
  {
    var fields := FieldClauses(f);
    var cs := Clauses(f, owner).value;
    var d := DateClauses(f);
    var c := TextClauses(f.categoryFilterOption, Category, f.categoryText);
    var a := AmountClauses(f);
    var v := TextClauses(f.vendorFilterOption, Vendor, f.vendorText);
    assert forall i :: 0 <= i < |d| ==> d[i].key == Date;
    assert forall i :: 0 <= i < |c| ==> c[i].key == Category;
    assert forall i :: 0 <= i < |a| ==> a[i].key == Amount;
    assert forall i :: 0 <= i < |v| ==> v[i].key == Vendor;
    assert forall i :: 0 <= i < |fields| ==> fields[i].key != Owner;
  }

  /* ---------------- Meaning ---------------- */

  lemma HoldsAllConcat(a: seq<Clause>, b: seq<Clause>, t: StoredTransaction)
    ensures HoldsAll(a + b, t) <==> HoldsAll(a, t) && HoldsAll(b, t)
  {
    if HoldsAll(a, t) && HoldsAll(b, t) {
      forall i | 0 <= i < |a + b| ensures Holds((a + b)[i], t) {
        if i >= |a| { assert (a + b)[i] == b[i - |a|]; }
      }
    }
    if HoldsAll(a + b, t) {
      forall i | 0 <= i < |a| ensures Holds(a[i], t) {
        assert (a + b)[i] == a[i];
      }
      forall i | 0 <= i < |b| ensures Holds(b[i], t) {
        assert (a + b)[|a| + i] == b[i];
      }
    }
  }

  lemma HoldsAllOne(c: Clause, t: StoredTransaction)
    ensures HoldsAll([c], t) <==> Holds(c, t)
  {
    assert [c][0] == c;
  }

  lemma HoldsAllTwo(c1: Clause, c2: Clause, t: StoredTransaction)
    ensures HoldsAll([c1, c2], t) <==> Holds(c1, t) && Holds(c2, t)
  {
    assert [c1, c2][0] == c1 && [c1, c2][1] == c2;
  }

  lemma TextClausesMean(option: string, key: Attribute, text: string, t: StoredTransaction)
    requires key == Category || key == Vendor
    ensures HoldsAll(TextClauses(option, key, text), t) <==> TextRule(option, text, ValueForKey(t, key).text)
  {
    var cs := TextClauses(option, key, text);
    if |cs| == 1 {
      HoldsAllOne(cs[0], t);
      assert cs == [cs[0]];
    }
  }

  lemma DateClausesMean(f: FilterData, t: StoredTransaction)
    ensures HoldsAll(DateClauses(f), t) <==> DateRule(f, t.record.date)
  {
    var cs := DateClauses(f);
    if |cs| == 1 {
      HoldsAllOne(cs[0], t);
      assert cs == [cs[0]];
    } else if |cs| == 2 {
      HoldsAllTwo(cs[0], cs[1], t);
      assert cs == [cs[0], cs[1]];
    }
  }

  lemma AmountClausesMean(f: FilterData, t: StoredTransaction)
    ensures HoldsAll(AmountClauses(f), t) <==> AmountRule(f, t.record.amount)
  {
    var cs := AmountClauses(f);
    if |cs| == 1 {
      HoldsAllOne(cs[0], t);
      assert cs == [cs[0]];
    }
  }

  /**
   * A transaction matches the built predicate exactly when the filter is active
   * and the transaction passes every per-field rule and the owner scope.
   */
  lemma MatchesMeansFilterRules(t: StoredTransaction, f: FilterData, owner: string)
    ensures Matches(t, f, owner) <==> IsActive(f) && FilterRules(f, owner, t)
  {
    var d := DateClauses(f);
    var c := TextClauses(f.categoryFilterOption, Category, f.categoryText);
    var a := AmountClauses(f);
    var v := TextClauses(f.vendorFilterOption, Vendor, f.vendorText);
    var o: seq<Clause> := if owner != "" then [OwnerClause(owner)] else [];
    HoldsAllConcat(d, c, t);
    HoldsAllConcat(d + c, a, t);
    HoldsAllConcat(d + c + a, v, t);
    HoldsAllConcat(d + c + a + v, o, t);
    TextClausesMean(f.categoryFilterOption, Category, f.categoryText, t);
    TextClausesMean(f.vendorFilterOption, Vendor, f.vendorText, t);
    DateClausesMean(f, t);
    AmountClausesMean(f, t);
    if owner != "" {
      HoldsAllOne(OwnerClause(owner), t);
    }
  }

  /** With a non-empty owner, every matching transaction belongs to that owner. */
  lemma MatchesOnlyOwner(t: StoredTransaction, f: FilterData, owner: string)
    requires owner != "" && Matches(t, f, owner)
    ensures t.owner == owner
  {
    MatchesMeansFilterRules(t, f, owner);
  }

  /* ---------------- Fetching with a predicate ---------------- */

  /** The transactions of `ts` the conditions select, in their original order. */
  function Fetch(ts: seq<StoredTransaction>, cs: seq<Clause>): (r: seq<StoredTransaction>)
    ensures |r| <= |ts|
    ensures forall i :: 0 <= i < |r| ==> HoldsAll(cs, r[i])
    ensures forall t :: multiset(r)[t] == if HoldsAll(cs, t) then multiset(ts)[t] else 0
    decreases |ts|
  {
    if |ts| == 0 then []
    else
      var init := ts[..|ts| - 1];
      var last := ts[|ts| - 1];
      assert ts == init + [last];
      var r := Fetch(init, cs);
      if HoldsAll(cs, last) then r + [last] else r
  }

  /* ---------------- Text structure ---------------- */

  lemma FragmentStartsWithKey(c: Clause)
    ensures |Fragment(c)| >= 7 && Fragment(c)[..2] == "%K"
  {
  }

  /** The fragments joined front to back with one conjunction between neighbours. */
  function Joined(cs: seq<Clause>): string
  {
    if |cs| == 0 then "" else Fragment(cs[0]) + ConjoinedTail(cs[1..])
  }

  function ConjoinedTail(cs: seq<Clause>): string
    decreases |cs|
  {
    if |cs| == 0 then "" else Link(cs[0]) + ConjoinedTail(cs[1..])
  }

  /** One clause as it is appended behind an earlier one. */
  function Link(c: Clause): string
  {
    Conjunction + Fragment(c)
  }

  lemma {:induction false} ConjoinedTailSnoc(cs: seq<Clause>, c: Clause)
    ensures ConjoinedTail(cs + [c]) == ConjoinedTail(cs) + Link(c)
    decreases |cs|
  {
    if |cs| == 0 {
      assert ([] + [c])[1..] == [];
    } else {
      ConjoinedTailUnfoldSnoc(cs, c);
      ConjoinedTailSnoc(cs[1..], c);
      ConcatAssoc(Link(cs[0]), ConjoinedTail(cs[1..]), Link(c));
    }
  }

  lemma ConjoinedTailUnfoldSnoc(cs: seq<Clause>, c: Clause)
    requires |cs| > 0
    ensures ConjoinedTail(cs + [c]) == Link(cs[0]) + ConjoinedTail(cs[1..] + [c])
  {
    assert (cs + [c])[0] == cs[0];
    assert (cs + [c])[1..] == cs[1..] + [c];
  }

  lemma JoinedSnoc(init: seq<Clause>, c: Clause)
    ensures Joined(init + [c]) == if |init| == 0 then Fragment(c) else Joined(init) + Link(c)
  {
    if |init| == 0 {
      JoinedOne(c);
      assert init + [c] == [c];
    } else {
      JoinedSnocNonEmpty(init, c);
    }
  }

  lemma JoinedOne(c: Clause)
    ensures Joined([c]) == Fragment(c)
  {
    assert [c][1..] == [];
    assert Fragment(c) + "" == Fragment(c);
  }

  lemma JoinedSnocNonEmpty(init: seq<Clause>, c: Clause)
    requires |init| > 0
    ensures Joined(init + [c]) == Joined(init) + Link(c)
  {
    var cs := init + [c];
    assert cs[0] == init[0];
    assert cs[1..] == init[1..] + [c];
    ConjoinedTailSnoc(init[1..], c);
    ConcatAssoc(Fragment(init[0]), ConjoinedTail(init[1..]), Link(c));
  }

  lemma ConcatAssoc(x: string, y: string, z: string)
    ensures x + (y + z) == (x + y) + z
  {
  }

  lemma {:induction false} RenderIsJoined(cs: seq<Clause>)
    ensures Render(cs).format == Joined(cs)
    decreases |cs|
  {
    if |cs| == 1 {
      RenderOne(cs[0]);
      assert cs == [cs[0]];
      JoinedSnoc([], cs[0]);
    } else if |cs| > 1 {
      var init, c := cs[..|cs| - 1], cs[|cs| - 1];
      assert cs == init + [c];
      RenderIsJoined(init);
      RenderSnocNonEmpty(init, c);
      JoinedSnoc(init, c);
      ConcatAssoc(Render(init).format, Conjunction, Fragment(c));
    }
  }

  lemma RenderOne(c: Clause)
    ensures Render([c]).format == Fragment(c)
  {
    AppendOne(EmptyPredicate, c);
    assert "" + "" + Fragment(c) == Fragment(c);
  }

  lemma RenderSnocNonEmpty(init: seq<Clause>, c: Clause)
    requires |init| > 0
    ensures Render(init + [c]).format == Render(init).format + Conjunction + Fragment(c)
  {
    AppendClausesSnoc(EmptyPredicate, init, c);
    AppendClausesFormatEmpty(EmptyPredicate, init);
  }

  /**
   * A built predicate is the field fragments and then the owner fragment,
   * joined with exactly one conjunction between neighbours; it starts with a
   * `%K` placeholder and so never with the conjunction.
   */
  lemma PredicateTextShape(f: FilterData, owner: string)
    ensures var r := CreatePredicate(f, owner);
      r.Some? ==> && Clauses(f, owner).Some?
                  && r.value.format == Joined(Clauses(f, owner).value)
                  && |r.value.format| >= |Conjunction|
                  && r.value.format[..2] == "%K"
                  && r.value.format[..|Conjunction|] != Conjunction
  {
    CreatePredicateRendersClauses(f, owner);
    var r := CreatePredicate(f, owner);
    if r.Some? {
      var cs := Clauses(f, owner).value;
      RenderIsJoined(cs);
      var s := Fragment(cs[0]) + ConjoinedTail(cs[1..]);
      FragmentStartsWithKey(cs[0]);
      assert s[..2] == Fragment(cs[0])[..2];
      assert s[..|Conjunction|][0] == '%';
    }
  }

  /* ---------------- Placeholders and arguments ---------------- */

  datatype Placeholder = KeyPlaceholder | ValuePlaceholder

  /** The `%K` and `%@` placeholders of a format string, left to right. */
  function Placeholders(s: string): seq<Placeholder>
    decreases |s|
  {
    if |s| == 0 then []
    else if s[0] == '%' && |s| >= 2 && s[1] == 'K' then [KeyPlaceholder] + Placeholders(s[2..])
    else if s[0] == '%' && |s| >= 2 && s[1] == '@' then [ValuePlaceholder] + Placeholders(s[2..])
    else Placeholders(s[1..])
  }

  /** The placeholder each argument fills: keys fill `%K`, values fill `%@`. */
  function ArgumentKinds(args: seq<Argument>): (r: seq<Placeholder>)
    ensures |r| == |args|
    ensures forall i :: 0 <= i < |args| ==> (r[i] == KeyPlaceholder <==> args[i].KeyArgument?)
    decreases |args|
  {
    if |args| == 0 then []
    else [if args[0].KeyArgument? then KeyPlaceholder else ValuePlaceholder] + ArgumentKinds(args[1..])
  }

  lemma {:induction false} ArgumentKindsConcat(a: seq<Argument>, b: seq<Argument>)
    ensures ArgumentKinds(a + b) == ArgumentKinds(a) + ArgumentKinds(b)
  {
  }

  predicate StartsWithPlaceholder(s: string)
  {
    |s| >= 2 && s[0] == '%' && (s[1] == 'K' || s[1] == '@')
  }

  lemma PlaceholdersPair(s: string)
    requires StartsWithPlaceholder(s)
    ensures Placeholders(s) == [PlaceholderOf(s[1])] + Placeholders(s[2..])
  {
  }

  lemma PlaceholdersSkip(s: string)
    requires |s| > 0 && !StartsWithPlaceholder(s)
    ensures Placeholders(s) == Placeholders(s[1..])
  {
  }

  lemma {:induction false} PlaceholdersConcat(a: string, b: string)
    requires |a| == 0 || a[|a| - 1] != '%'
    ensures Placeholders(a + b) == Placeholders(a) + Placeholders(b)
    decreases |a|, 1
  {
    if |a| == 0 {
      assert a + b == b;
    } else if StartsWithPlaceholder(a) {
      PlaceholdersConcatPair(a, b);
    } else {
      PlaceholdersConcatSkip(a, b);
    }
  }

  lemma {:induction false} PlaceholdersConcatPair(a: string, b: string)
    requires StartsWithPlaceholder(a) && a[|a| - 1] != '%'
    ensures Placeholders(a + b) == Placeholders(a) + Placeholders(b)
    decreases |a|, 0
  {
    PairThenRest(a, b);
    PlaceholdersPair(a);
    PlaceholdersConcat(a[2..], b);
    SeqAssoc([PlaceholderOf(a[1])], Placeholders(a[2..]), Placeholders(b));
  }

  function PlaceholderOf(c: char): Placeholder
  {
    if c == 'K' then KeyPlaceholder else ValuePlaceholder
  }

  lemma PairThenRest(a: string, b: string)
    requires StartsWithPlaceholder(a)
    ensures Placeholders(a + b) == [PlaceholderOf(a[1])] + Placeholders(a[2..] + b)
  {
    var ab := a + b;
    assert ab[0] == a[0] && ab[1] == a[1];
    PlaceholdersPair(ab);
    assert ab[2..] == a[2..] + b;
  }

  lemma SeqAssoc<T>(x: seq<T>, y: seq<T>, z: seq<T>)
    ensures x + (y + z) == (x + y) + z
  {
  }

  lemma {:induction false} PlaceholdersConcatSkip(a: string, b: string)
    requires |a| > 0 && !StartsWithPlaceholder(a) && a[|a| - 1] != '%'
    ensures Placeholders(a + b) == Placeholders(a) + Placeholders(b)
    decreases |a|, 0
  {
    var ab, rest := a + b, a[1..];
    assert Placeholders(ab) == Placeholders(rest + b) by {
      assert ab[0] == a[0];
      assert !StartsWithPlaceholder(ab) by {
        if |a| >= 2 { assert ab[1] == a[1]; }
      }
      PlaceholdersSkip(ab);
      assert ab[1..] == rest + b;
    }
    assert Placeholders(a) == Placeholders(rest) by {
      PlaceholdersSkip(a);
    }
    assert Placeholders(rest + b) == Placeholders(rest) + Placeholders(b) by {
      PlaceholdersConcat(rest, b);
    }
  }

  lemma {:induction false} NoPercentNoPlaceholders(s: string)
    requires '%' !in s
    ensures Placeholders(s) == []
    decreases |s|
  {
    if |s| > 0 {
      assert s[0] in s;
      NoPercentNoPlaceholders(s[1..]);
    }
  }

  lemma KeyPlaceholderText()
    ensures Placeholders("%K") == [KeyPlaceholder]
  {
    assert "%K"[2..] == [];
  }

  lemma ValuePlaceholderText()
    ensures Placeholders("%@") == [ValuePlaceholder]
  {
    assert "%@"[2..] == [];
  }

  lemma FragmentPlaceholders(c: Clause)
    ensures Placeholders(Fragment(c)) == ArgumentKinds(ClauseArguments(c))
    ensures |Fragment(c)| > 0 && Fragment(c)[|Fragment(c)| - 1] != '%'
  {
    match c
    case Compare(k, op, v) => ComparePlaceholders(k, op, v);
    case Within(k, lo, hi) => WithinPlaceholders(k, lo, hi);
  }

  lemma OperatorTextHasNoPercent(op: Comparison)
    ensures '%' !in OperatorText(op) && OperatorText(op)[|OperatorText(op)| - 1] == ' '
  {
  }

  lemma ComparePlaceholders(k: Attribute, op: Comparison, v: Value)
    ensures Placeholders(Fragment(Compare(k, op, v))) == [KeyPlaceholder, ValuePlaceholder]
    ensures ArgumentKinds(ClauseArguments(Compare(k, op, v))) == [KeyPlaceholder, ValuePlaceholder]
    ensures Fragment(Compare(k, op, v))[|Fragment(Compare(k, op, v))| - 1] == '@'
  {
    var m := OperatorText(op);
    var a := "%K" + m;
    assert Placeholders(a) == [KeyPlaceholder] by {
      OperatorTextHasNoPercent(op);
      KeyPlaceholderText();
      PlaceholdersAppendText("%K", m);
    }
    assert a[|a| - 1] == ' ' by { OperatorTextHasNoPercent(op); }
    PlaceholdersAppendValue(a);
  }

  lemma PlaceholdersAppendText(a: string, b: string)
    requires |a| > 0 && a[|a| - 1] != '%' && '%' !in b
    ensures Placeholders(a + b) == Placeholders(a)
  {
    NoPercentNoPlaceholders(b);
    PlaceholdersConcat(a, b);
  }

  lemma PlaceholdersAppendValue(a: string)
    requires |a| > 0 && a[|a| - 1] != '%'
    ensures Placeholders(a + "%@") == Placeholders(a) + [ValuePlaceholder]
  {
    ValuePlaceholderText();
    PlaceholdersConcat(a, "%@");
  }

  lemma WithinPlaceholders(k: Attribute, lo: Value, hi: Value)
    ensures Placeholders(Fragment(Within(k, lo, hi))) == [KeyPlaceholder, ValuePlaceholder, ValuePlaceholder]
    ensures ArgumentKinds(ClauseArguments(Within(k, lo, hi))) == [KeyPlaceholder, ValuePlaceholder, ValuePlaceholder]
    ensures Fragment(Within(k, lo, hi))[|Fragment(Within(k, lo, hi))| - 1] == '}'
  {
    var a1 := BetweenOpening();
    var a2 := a1 + "%@";
    PlaceholdersAppendValue(a1);
    var a3 := a2 + ", ";
    assert Placeholders(a3) == Placeholders(a2) by {
      assert '%' !in ", ";
      PlaceholdersAppendText(a2, ", ");
    }
    var a4 := a3 + "%@";
    assert Placeholders(a4) == Placeholders(a3) + [ValuePlaceholder] by {
      assert a3[|a3| - 1] == ' ';
      PlaceholdersAppendValue(a3);
    }
    var a5 := a4 + "}";
    assert Placeholders(a5) == Placeholders(a4) by {
      assert '%' !in "}";
      PlaceholdersAppendText(a4, "}");
    }
    assert Fragment(Within(k, lo, hi)) == a5;
  }

  lemma BetweenOpening() returns (a: string)
    ensures a == "%K BETWEEN {" && Placeholders(a) == [KeyPlaceholder] && a[|a| - 1] == '{'
  {
    a := "%K BETWEEN {";
    KeyPlaceholderText();
    assert a == "%K" + " BETWEEN {";
    assert '%' !in " BETWEEN {";
    PlaceholdersAppendText("%K", " BETWEEN {");
  }

  /** Appending a fragment whose placeholders match its arguments keeps the whole text matched. */
  lemma AppendPlaceholders(p: PredicateText, frag: string, args: seq<Argument>)
    requires Placeholders(p.format) == ArgumentKinds(p.arguments)
    requires |p.format| == 0 || p.format[|p.format| - 1] != '%'
    requires Placeholders(frag) == ArgumentKinds(args)
    requires |frag| > 0 && frag[|frag| - 1] != '%'
    ensures Placeholders(AppendClause(p, frag, args).format) == ArgumentKinds(AppendClause(p, frag, args).arguments)
    ensures var s := AppendClause(p, frag, args).format; |s| > 0 && s[|s| - 1] != '%'
  {
    var sep := if p.format != "" then Conjunction else "";
    var a := p.format + sep;
    assert Placeholders(a) == Placeholders(p.format) by {
      if sep == "" {
        assert a == p.format;
      } else {
        PlaceholdersAppendText(p.format, Conjunction);
      }
    }
    assert |a| == 0 || a[|a| - 1] != '%';
    PlaceholdersConcat(a, frag);
    ArgumentKindsConcat(p.arguments, args);
    assert (a + frag)[|a + frag| - 1] == frag[|frag| - 1];
  }

  predicate PlaceholdersAligned(p: PredicateText)
  {
    && Placeholders(p.format) == ArgumentKinds(p.arguments)
    && (|p.format| == 0 || p.format[|p.format| - 1] != '%')
  }

  lemma {:induction false} RenderPlaceholdersAlign(cs: seq<Clause>)
    ensures PlaceholdersAligned(Render(cs))
    decreases |cs|
  {
    if |cs| > 0 {
      var init, c := cs[..|cs| - 1], cs[|cs| - 1];
      RenderPlaceholdersAlign(init);
      FragmentPlaceholders(c);
      AppendPlaceholders(Render(init), Fragment(c), ClauseArguments(c));
    }
  }

  /**
   * In a built predicate the placeholders and the arguments line up one to one:
   * as many placeholders as arguments, a key under every `%K`, a value under every `%@`.
   */
  lemma PlaceholdersMatchArguments(f: FilterData, owner: string)
    ensures var r := CreatePredicate(f, owner);
      r.Some? ==> && Placeholders(r.value.format) == ArgumentKinds(r.value.arguments)
                  && |Placeholders(r.value.format)| == |r.value.arguments|
  {
    CreatePredicateRendersClauses(f, owner);
    if Clauses(f, owner).Some? {
      RenderPlaceholdersAlign(Clauses(f, owner).value);
      assert PlaceholdersAligned(Render(Clauses(f, owner).value));
    }
  }

  /* ---------------- Worked scenarios ---------------- */

  const Groceries50 := StoredTransaction(Transaction(0, "Grocery", 5000, "Market"), "Sample")
  const Groceries30 := StoredTransaction(Transaction(0, "Grocery", 3000, "Market"), "Sample")
  const Gas20 := StoredTransaction(Transaction(0, "Gas", 2000, "Station"), "Sample")

  /** A filter with only an amount option: `greater than` 40.00. */
  const AboveForty := FilterData(NoneOption, 0, 0, NoneOption, "", GreaterOption, 4000, 0, NoneOption, "")

  /** An amount filter `greater than` 40.00 over three records keeps only the 50.00 one. */
  lemma GreaterThanScenario()
    ensures && Clauses(AboveForty, "") == Some([Compare(Amount, Above, AmountValue(4000))])
            && Fetch([Groceries50, Groceries30, Gas20], Clauses(AboveForty, "").value) == [Groceries50]
  {
    AboveFortyClauses();
    FetchAboveForty();
  }

  lemma AboveFortyClauses()
    ensures Clauses(AboveForty, "") == Some([Compare(Amount, Above, AmountValue(4000))])
  {
    var f := AboveForty;
    var cs := [Compare(Amount, Above, AmountValue(4000))];
    assert DateClauses(f) == [];
    assert TextClauses(NoneOption, Category, "") == [];
    assert TextClauses(NoneOption, Vendor, "") == [];
    assert AmountClauses(f) == cs;
    assert FieldClauses(f) == [] + [] + cs + [];
    assert FieldClauses(f) == cs;
    assert cs + [] == cs;
    assert WithOwner(cs, "") == Some(cs);
  }

  lemma FetchAboveForty()
    ensures Fetch([Groceries50, Groceries30, Gas20], [Compare(Amount, Above, AmountValue(4000))]) == [Groceries50]
  {
    var c := Compare(Amount, Above, AmountValue(4000));
    HoldsAllOne(c, Groceries50);
    HoldsAllOne(c, Groceries30);
    HoldsAllOne(c, Gas20);
    var ts := [Groceries50, Groceries30, Gas20];
    assert ts[..2] == [Groceries50, Groceries30];
    assert ts[..2][..1] == [Groceries50];
    assert ts[..2][..1][..0] == [];
  }

  const January := FilterData(BetweenOption, 1704067200, 1706659200, EqualsOption, "Rent",
                               NoneOption, 0, 0, NoneOption, "")

  const JanuaryClauses := [Compare(Date, AtLeast, DateValue(1704067200)), Compare(Date, AtMost, DateValue(1706659200)),
                            Compare(Category, EqualTo, TextValue("Rent")), OwnerClause("Sample")]

  lemma JanuaryClausesListed()
    ensures Clauses(January, "Sample") == Some(JanuaryClauses)
  {
    var f := January;
    var cs := JanuaryClauses;
    assert DateClauses(f) == cs[..2];
    assert TextClauses(EqualsOption, Category, "Rent") == [cs[2]];
    assert AmountClauses(f) == [];
    assert TextClauses(NoneOption, Vendor, "") == [];
    assert FieldClauses(f) == cs[..3];
    assert cs[..3] + [OwnerClause("Sample")] == cs;
    assert WithOwner(cs[..3], "Sample") == Some(cs);
  }

  /**
   * A date range for January 2024 with category `Rent` under owner `Sample`
   * builds the four comparisons date >= start, date <= end, category == Rent,
   * owner == Sample.
   */
  lemma DateRangeScenarioText()
    ensures CreatePredicate(January, "Sample") == Some(PredicateText(
           "%K >= %@ AND %K <= %@ AND %K == %@ AND %K == %@",
           [KeyArgument(Date), ValueArgument(DateValue(1704067200)),
            KeyArgument(Date), ValueArgument(DateValue(1706659200)),
            KeyArgument(Category), ValueArgument(TextValue("Rent")),
            KeyArgument(Owner), ValueArgument(TextValue("Sample"))]))
  {
    var p1 := JanuaryFieldPredicate();
    var q := AppendClause(p1, "%K == %@", [KeyArgument(Owner), ValueArgument(TextValue("Sample"))]);
    assert q.format == "%K >= %@ AND %K <= %@ AND %K == %@ AND %K == %@";
    assert q.arguments == [KeyArgument(Date), ValueArgument(DateValue(1704067200)),
            KeyArgument(Date), ValueArgument(DateValue(1706659200)),
            KeyArgument(Category), ValueArgument(TextValue("Rent")),
            KeyArgument(Owner), ValueArgument(TextValue("Sample"))];
    assert FinishPredicate(p1, "Sample") == Some(q);
  }

  /** The three field clauses of the January filter, built step by step. */
  lemma JanuaryFieldPredicate() returns (p1: PredicateText)
    ensures FieldPredicate(January) == p1
    ensures p1 == PredicateText("%K >= %@ AND %K <= %@ AND %K == %@",
      DateKeyValue(1704067200) + DateKeyValue(1706659200) + [KeyArgument(Category), ValueArgument(TextValue("Rent"))])
  {
    var f := January;
    var p0 := AddDateClause(EmptyPredicate, f);
    assert p0 == PredicateText("%K >= %@ AND %K <= %@", DateKeyValue(1704067200) + DateKeyValue(1706659200));
    p1 := AddTextClause(p0, f.categoryFilterOption, Category, f.categoryText);
    assert p1 == PredicateText("%K >= %@ AND %K <= %@ AND %K == %@", p0.arguments + [KeyArgument(Category), ValueArgument(TextValue("Rent"))]);
    var p2 := AddAmountClause(p1, f);
    assert p2 == p1;
    assert AddTextClause(p2, f.vendorFilterOption, Vendor, f.vendorText) == p1;
  }

  /** Both ends of the January range are included and the first of February is not. */
  lemma DateRangeScenarioMatches()
    ensures Matches(StoredTransaction(Transaction(1704067200, "Rent", 90000, "Landlord"), "Sample"), January, "Sample")
    ensures Matches(StoredTransaction(Transaction(1706659200, "Rent", 90000, "Landlord"), "Sample"), January, "Sample")
    ensures !Matches(StoredTransaction(Transaction(1706745600, "Rent", 90000, "Landlord"), "Sample"), January, "Sample")
  {
    MatchesMeansFilterRules(StoredTransaction(Transaction(1704067200, "Rent", 90000, "Landlord"), "Sample"), January, "Sample");
    MatchesMeansFilterRules(StoredTransaction(Transaction(1706659200, "Rent", 90000, "Landlord"), "Sample"), January, "Sample");
    MatchesMeansFilterRules(StoredTransaction(Transaction(1706745600, "Rent", 90000, "Landlord"), "Sample"), January, "Sample");
  }

  /** The argument array of a rendering is each clause's arguments in turn. */
  lemma {:induction false} RenderArguments(cs: seq<Clause>)
    ensures Render(cs).arguments == ClauseArgumentsOf(cs)
    decreases |cs|
  {
    if |cs| > 0 {
      RenderArguments(cs[..|cs| - 1]);
      ClauseArgumentsOfLast(cs);
    }
  }

  function ClauseArgumentsOf(cs: seq<Clause>): seq<Argument>
    decreases |cs|
  {
    if |cs| == 0 then [] else ClauseArguments(cs[0]) + ClauseArgumentsOf(cs[1..])
  }

  lemma {:induction false} ClauseArgumentsOfLast(cs: seq<Clause>)
    requires |cs| > 0
    ensures ClauseArgumentsOf(cs) == ClauseArgumentsOf(cs[..|cs| - 1]) + ClauseArguments(cs[|cs| - 1])
    decreases |cs|
  {
    if |cs| == 1 {
      assert cs[1..] == [] && cs[..0] == [];
    } else {
      var tail := cs[1..];
      ClauseArgumentsOfLast(tail);
      assert tail[..|tail| - 1] == cs[..|cs| - 1][1..];
      assert cs[..|cs| - 1][0] == cs[0];
      assert tail[|tail| - 1] == cs[|cs| - 1];
    }
  }

  /** When `t`'s characters are `s`'s first characters lower-cased, `t` is a prefix of `Fold(s)`. */
  lemma FoldPrefix(s: string, t: string)
    requires |t| <= |s|
    requires forall i :: 0 <= i < |t| ==> LowerChar(s[i]) == t[i]
    ensures Fold(s)[..|t|] == t
  {
  }

  lemma FoldDining()
    ensures Fold("dining") == "dining"
  {
    var t := "dining";
    assert LowerChar(t[0]) == 'd' && LowerChar(t[1]) == 'i' && LowerChar(t[2]) == 'n';
    assert LowerChar(t[3]) == 'i' && LowerChar(t[4]) == 'n' && LowerChar(t[5]) == 'g';
    FoldPrefix(t, t);
    assert Fold(t)[..6] == Fold(t);
  }

  lemma FoldDiningOut()
    ensures Fold("Dining Out")[..6] == "dining"
  {
    var s := "Dining Out";
    assert LowerChar(s[0]) == 'd' && LowerChar(s[1]) == 'i' && LowerChar(s[2]) == 'n';
    assert LowerChar(s[3]) == 'i' && LowerChar(s[4]) == 'n' && LowerChar(s[5]) == 'g';
    FoldPrefix(s, "dining");
  }

  lemma DiningContainsDining()
    ensures TextRule(ContainsOption, "dining", "Dining Out")
  {
    FoldDining();
    FoldDiningOut();
    assert OccursAt(Fold("dining"), Fold("Dining Out"), 0);
  }

  /** `contains` ignores case: the category `Dining Out` contains the text `dining`. */
  lemma ContainsIgnoresCaseScenario(t: StoredTransaction, f: FilterData)
    requires t.record.category == "Dining Out"
    requires f == FilterData(NoneOption, 0, 0, ContainsOption, "dining", NoneOption, 0, 0, NoneOption, "")
    ensures Matches(t, f, "")
  {
    DiningContainsDining();
    assert FilterRules(f, "", t);
    assert IsActive(f);
    MatchesMeansFilterRules(t, f, "");
  }

  /**
   * A `contains` option with an empty text still adds its condition, and
   * that condition selects nothing: the filter matches no transaction.
   */
  lemma EmptyContainsSelectsNothing(t: StoredTransaction, f: FilterData, owner: string)
    requires || (f.categoryFilterOption == ContainsOption && f.categoryText == "")
             || (f.vendorFilterOption == ContainsOption && f.vendorText == "")
    ensures IsActive(f)
    ensures !Matches(t, f, owner)
  {
    assert ContainsOption == FilterStringOptions[1..][1];
    MatchesMeansFilterRules(t, f, owner);
  }
}
