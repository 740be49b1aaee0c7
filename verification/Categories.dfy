/**
 * The category lists (`CategoryData`): a fixed list of default names and a
 * user-maintained list of custom names, with adding and deleting of custom
 * names. Loading and saving the custom list are settings-store effects and
 * appear here only as the list handed in at start-up.
 */
module Categories {
  import opened Wrappers

  /** The built-in category names, in menu order. */
  const DefaultCategoryStrings: seq<string> := [
    "Mortgage", "Rent", "Property Tax", "Condo/Strata Fees", "Insurance - House",
    "Utilities - Hydro", "Utilities - Natural Gas", "Utilities - Water", "Cable and Internet",
    "Maintenance - House", "Furniture", "Car Payments", "Gas", "Parking", "Maintenance - Car",
    "Insurance - Car", "Insurance - Life", "Transit", "Grocery", "Dining Out", "Alcohol",
    "Cell Phone", "Gym and Fitness", "Clothes", "Charity", "Vacations", "Entertainment",
    "Beauty", "Medical", "Dental"]

  datatype CategoryData = CategoryData(categoryStrings: seq<string>, customCategoryStrings: seq<string>)

  /** `init`: the defaults, and the custom list the settings store held, if it held one. */
  function Init(storedCustomCategories: Option<seq<string>>): CategoryData
  {
    CategoryData(DefaultCategoryStrings,
                 if storedCustomCategories.Some? then storedCustomCategories.value else [])
  }

  predicate NoDuplicates(s: seq<string>)
  {
    forall i, j :: 0 <= i < j < |s| ==> s[i] != s[j]
  }

  /** The invariant `addCategory` keeps: custom names are distinct and none is a default name. */
  predicate Valid(d: CategoryData)
  {
    && NoDuplicates(d.customCategoryStrings)
    && forall i :: 0 <= i < |d.customCategoryStrings| ==> d.customCategoryStrings[i] !in d.categoryStrings
  }

  /* ---------------- Adding ---------------- */

  /**
   * `addCategory`: an empty name, or a name already in either list (exact,
   * case-sensitive match), is refused and nothing changes; any other name is
   * appended to the custom list.
   */
  function AddCategory(d: CategoryData, name: string): (res: (bool, CategoryData))
    ensures res.0 <==> name != "" && name !in d.categoryStrings && name !in d.customCategoryStrings
    ensures !res.0 ==> res.1 == d
    ensures res.0 ==> res.1.customCategoryStrings == d.customCategoryStrings + [name]
    ensures res.1.categoryStrings == d.categoryStrings
  {
    if name == "" then (false, d)
    else if name in d.categoryStrings || name in d.customCategoryStrings then (false, d)
    else (true, d.(customCategoryStrings := d.customCategoryStrings + [name]))
  }

  lemma AddCategoryPreservesValid(d: CategoryData, name: string)
    requires Valid(d)
    ensures Valid(AddCategory(d, name).1)
  {
    var (ok, d') := AddCategory(d, name);
    if ok {
      var s := d'.customCategoryStrings;
      forall i, j | 0 <= i < j < |s| ensures s[i] != s[j] {
        if j == |s| - 1 {
          assert s[i] == d.customCategoryStrings[i];
        }
      }
    }
  }

  /** Adding a name that was just added is refused and changes nothing. */
  lemma AddCategoryTwice(d: CategoryData, name: string)
    requires AddCategory(d, name).0
    ensures var d' := AddCategory(d, name).1;
      !AddCategory(d', name).0 && AddCategory(d', name).1 == d'
  {
    var d' := AddCategory(d, name).1;
    assert d'.customCategoryStrings[|d'.customCategoryStrings| - 1] == name;
  }

  /* ---------------- Deleting ---------------- */

  /** The elements of `s` whose positions are not in `positions`, in their original order. */
  function Keep(s: seq<string>, positions: set<int>): (r: seq<string>)
    ensures |r| <= |s|
    decreases |s|
  {
    if |s| == 0 then []
    else Keep(s[..|s| - 1], positions) + (if |s| - 1 in positions then [] else [s[|s| - 1]])
  }

  /** The positions of `positions` that index into a list of length `n`. */
  function InRange(positions: set<int>, n: int): set<int>
  {
    set i | i in positions && 0 <= i < n
  }

  function Elements(indices: seq<int>): set<int>
  {
    set i | i in indices
  }

  predicate StrictlyIncreasing(indices: seq<int>)
  {
    forall i, j :: 0 <= i < j < |indices| ==> indices[i] < indices[j]
  }

  /** An element survives exactly when it stands at a position not being deleted. */
  lemma {:induction false} KeepMembers(s: seq<string>, positions: set<int>, x: string)
    ensures x in Keep(s, positions) <==> exists i :: 0 <= i < |s| && i !in positions && s[i] == x
    decreases |s|
  {
    if |s| > 0 {
      var n := |s| - 1;
      KeepMembers(s[..n], positions, x);
      if exists i :: 0 <= i < |s| && i !in positions && s[i] == x {
        var i :| 0 <= i < |s| && i !in positions && s[i] == x;
        if i < n { assert s[..n][i] == s[i]; }
      }
      if exists i :: 0 <= i < n && i !in positions && s[..n][i] == x {
        var i :| 0 <= i < n && i !in positions && s[..n][i] == x;
        assert s[i] == x;
      }
    }
  }

  /** Only the positions inside the list matter. */
  lemma {:induction false} KeepInRangeOnly(s: seq<string>, a: set<int>, b: set<int>)
    requires InRange(a, |s|) == InRange(b, |s|)
    ensures Keep(s, a) == Keep(s, b)
    decreases |s|
  {
    if |s| > 0 {
      var n := |s| - 1;
      assert n in a <==> n in InRange(a, |s|);
      assert n in b <==> n in InRange(b, |s|);
      assert InRange(a, n) == InRange(b, n) by {
        forall i ensures i in InRange(a, n) <==> i in InRange(b, n) {
          assert i in InRange(a, n) <==> i in InRange(a, |s|) && i < n;
          assert i in InRange(b, n) <==> i in InRange(b, |s|) && i < n;
        }
      }
      KeepInRangeOnly(s[..n], a, b);
    }
  }

  /** Appending elements at positions that are not deleted appends them to the survivors. */
  lemma {:induction false} KeepAppendUntouched(p: seq<string>, q: seq<string>, positions: set<int>)
    requires forall i :: i in positions ==> !(|p| <= i < |p| + |q|)
    ensures Keep(p + q, positions) == Keep(p, positions) + q
    decreases |q|
  {
    if |q| == 0 {
      assert p + q == p;
    } else {
      var pq := p + q;
      var q' := q[..|q| - 1];
      assert pq[..|pq| - 1] == p + q';
      assert pq[|pq| - 1] == q[|q| - 1];
      assert |pq| - 1 !in positions;
      KeepAppendUntouched(p, q', positions);
      assert q' + [q[|q| - 1]] == q;
    }
  }

  /**
   * Deleting the highest position first leaves the lower positions where they
   * were, so the remaining deletions still refer to the original list.
   */
  lemma KeepRemoveHighest(s: seq<string>, lower: set<int>, m: int)
    requires 0 <= m < |s|
    requires forall i :: i in lower ==> i < m
    ensures Keep(s, lower + {m}) == Keep(s[..m] + s[m + 1..], lower)
  {
    var p, q := s[..m], s[m + 1..];
    var all := lower + {m};
    assert s == (p + [s[m]]) + q;
    KeepAppendUntouched(p + [s[m]], q, all);
    KeepLastDeleted(p, s[m], all);
    KeepSameBelow(p, all, lower);
    KeepAppendUntouched(p, q, lower);
  }

  lemma KeepLastDeleted(p: seq<string>, x: string, positions: set<int>)
    requires |p| in positions
    ensures Keep(p + [x], positions) == Keep(p, positions)
  {
    assert (p + [x])[..|p|] == p;
  }

  lemma KeepSameBelow(p: seq<string>, a: set<int>, b: set<int>)
    requires forall i :: 0 <= i < |p| ==> (i in a <==> i in b)
    ensures Keep(p, a) == Keep(p, b)
  {
    assert InRange(a, |p|) == InRange(b, |p|);
    KeepInRangeOnly(p, a, b);
  }

  lemma KeepSkipOutside(s: seq<string>, lower: set<int>, m: int)
    requires !(0 <= m < |s|)
    ensures Keep(s, lower + {m}) == Keep(s, lower)
  {
    assert InRange(lower + {m}, |s|) == InRange(lower, |s|);
    KeepInRangeOnly(s, lower + {m}, lower);
  }

  /** As many elements go as there are distinct positions inside the list. */
  lemma {:induction false} KeepLength(s: seq<string>, positions: set<int>)
    ensures |Keep(s, positions)| == |s| - |InRange(positions, |s|)|
    decreases |s|
  {
    if |s| == 0 {
      assert InRange(positions, 0) == {};
    } else {
      var n := |s| - 1;
      KeepLength(s[..n], positions);
      if n in positions {
        assert InRange(positions, |s|) == InRange(positions, n) + {n};
      } else {
        assert InRange(positions, |s|) == InRange(positions, n);
      }
    }
  }

  /**
   * `deleteCategories`: the positions (an index set, so strictly increasing)
   * are visited from the highest down; each one inside the current custom list
   * is removed and the others are ignored. The survivors are exactly the
   * elements at the original positions not named, in their original order.
   */
  method DeleteCategories(d: CategoryData, indices: seq<int>) returns (r: CategoryData)
    requires StrictlyIncreasing(indices)
    ensures r.categoryStrings == d.categoryStrings
    ensures r.customCategoryStrings == Keep(d.customCategoryStrings, Elements(indices))
    ensures |r.customCategoryStrings| == |d.customCategoryStrings| - |InRange(Elements(indices), |d.customCategoryStrings|)|
  {
    var custom := d.customCategoryStrings;
    var k := |indices|;
    assert indices[..k] == indices;
    while k > 0
      invariant 0 <= k <= |indices|
      invariant Keep(custom, Elements(indices[..k])) == Keep(d.customCategoryStrings, Elements(indices))
      decreases k
    {
      var deleteIdx := indices[k - 1];
      var lower := Elements(indices[..k - 1]);
      assert Elements(indices[..k]) == lower + {deleteIdx} by {
        assert indices[..k] == indices[..k - 1] + [deleteIdx];
      }
      assert forall i :: i in lower ==> i < deleteIdx;
      if deleteIdx >= 0 && deleteIdx < |custom| {
        KeepRemoveHighest(custom, lower, deleteIdx);
        custom := custom[..deleteIdx] + custom[deleteIdx + 1..];
      } else {
        KeepSkipOutside(custom, lower, deleteIdx);
      }
      k := k - 1;
    }
    assert Elements(indices[..0]) == {};
    assert Keep(custom, {}) == custom by {
      KeepLength(custom, {});
      KeepNone(custom);
    }
    KeepLength(d.customCategoryStrings, Elements(indices));
    r := d.(customCategoryStrings := custom);
  }

  /** With no positions to delete every element survives. */
  lemma {:induction false} KeepNone(s: seq<string>)
    ensures Keep(s, {}) == s
    decreases |s|
  {
    if |s| > 0 {
      KeepNone(s[..|s| - 1]);
      assert s[..|s| - 1] + [s[|s| - 1]] == s;
    }
  }

  /** Deleting keeps the invariant: survivors stay distinct and stay out of the default list. */
  lemma {:induction false} KeepPreservesValid(d: CategoryData, positions: set<int>)
    requires Valid(d)
    ensures Valid(d.(customCategoryStrings := Keep(d.customCategoryStrings, positions)))
  {
    var s := d.customCategoryStrings;
    var r := Keep(s, positions);
    forall i | 0 <= i < |r| ensures r[i] !in d.categoryStrings {
      KeepMembers(s, positions, r[i]);
      var j :| 0 <= j < |s| && j !in positions && s[j] == r[i];
    }
    KeepNoDuplicates(s, positions);
  }

  lemma {:induction false} KeepNoDuplicates(s: seq<string>, positions: set<int>)
    requires NoDuplicates(s)
    ensures NoDuplicates(Keep(s, positions))
    decreases |s|
  {
    if |s| > 0 {
      var n := |s| - 1;
      assert NoDuplicates(s[..n]);
      KeepNoDuplicates(s[..n], positions);
      if n !in positions {
        var init := Keep(s[..n], positions);
        KeepMembers(s[..n], positions, s[n]);
        assert s[n] !in init;
        var r := init + [s[n]];
        forall i, j | 0 <= i < j < |r| ensures r[i] != r[j] {
          if j == |r| - 1 {
            assert r[i] in init;
          }
        }
      }
    }
  }

  /** A fresh start with no stored custom names satisfies the invariant. */
  lemma InitWithoutStoredIsValid()
    ensures Valid(Init(None))
  {
  }
}
