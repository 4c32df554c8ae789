/** The analytics dashboard (AnalyticsDashboard.jsx): spending grouped by
    month and by category, the slice colours of the category chart and the
    grand total. */
module Analytics {
  import opened Wrappers
  import opened Text
  import opened Clock
  import opened Records

  /** The grouping key of an expense. */
  type KeyOf = Expense -> string

  /** `expense.date.substring(0, 7)`: the "YYYY-MM" prefix of the date. */
  function MonthOf(e: Expense): string
  {
    Substring(e.date, 0, 7)
  }

  /** `expense.category`. */
  function CategoryOf(e: Expense): string
  {
    e.category
  }

  predicate Distinct(s: seq<string>)
  {
    forall i, j :: 0 <= i < j < |s| ==> s[i] != s[j]
  }

  // ---------------------------------------------------------------------------
  // One forEach pass over the expenses, as a specification
  // ---------------------------------------------------------------------------

  /** The keys of the `data` object after the pass, in insertion order. */
  function GroupKeys(es: seq<Expense>, keyOf: KeyOf): seq<string>
    decreases |es|
  {
    if |es| == 0 then []
    else
      var prev := GroupKeys(es[..|es| - 1], keyOf);
      var k := keyOf(es[|es| - 1]);
      if k in prev then prev else prev + [k]
  }

  /** `(data[k] || 0) + parseFloat(amount)`: an absent entry and a `NaN`
      entry are both falsy, so both start again from 0. */
  function AddTo(entry: Option<Num>, amount: Num): (r: Num)
    ensures r.NaN? <==> amount.NaN?
    ensures amount.Finite? && (entry.None? || entry == Some(NaN)) ==> r == amount
  {
    var base := if entry.Some? && entry.value.Finite? then entry.value.v else 0;
    match amount
    case NaN => NaN
    case Finite(a) => Finite(base + a)
  }

  /** `data[k]` after the pass: `None` while no expense had key `k`. */
  function Acc(es: seq<Expense>, keyOf: KeyOf, k: string): Option<Num>
    decreases |es|
  {
    if |es| == 0 then None
    else
      var prev := Acc(es[..|es| - 1], keyOf, k);
      if keyOf(es[|es| - 1]) == k then Some(AddTo(prev, ParsedAmount(es[|es| - 1]))) else prev
  }

  /** The index of the first expense with key `k` (`|es|` when there is none). */
  function FirstAt(es: seq<Expense>, keyOf: KeyOf, k: string): (p: nat)
    ensures p <= |es|
    ensures p < |es| ==> keyOf(es[p]) == k
    ensures forall j :: 0 <= j < p ==> keyOf(es[j]) != k
    decreases |es|
  {
    if |es| == 0 then 0
    else if keyOf(es[0]) == k then 0
    else 1 + FirstAt(es[1..], keyOf, k)
  }

  /** The sum of the amounts with key `k`, a missing amount counting as 0. */
  function GroupSum(es: seq<Expense>, keyOf: KeyOf, k: string): int
    decreases |es|
  {
    if |es| == 0 then 0
    else GroupSum(es[..|es| - 1], keyOf, k) + (if keyOf(es[|es| - 1]) == k then AmountOrZero(es[|es| - 1]) else 0)
  }

  predicate AllPresent(es: seq<Expense>)
  {
    forall i :: 0 <= i < |es| ==> es[i].amount.Some?
  }

  /** The keys are distinct, every expense's key is among them, and each of
      them is the key of some expense. */
  lemma {:induction false} GroupKeysExact(es: seq<Expense>, keyOf: KeyOf)
    ensures Distinct(GroupKeys(es, keyOf))
    ensures forall i :: 0 <= i < |es| ==> keyOf(es[i]) in GroupKeys(es, keyOf)
    ensures forall k :: k in GroupKeys(es, keyOf) ==> FirstAt(es, keyOf, k) < |es|
    decreases |es|
  {
    if |es| > 0 {
      var p := es[..|es| - 1];
      var last := keyOf(es[|es| - 1]);
      var prev := GroupKeys(p, keyOf);
      GroupKeysExact(p, keyOf);
      assert GroupKeys(es, keyOf) == if last in prev then prev else prev + [last];
      forall i | 0 <= i < |es|
        ensures keyOf(es[i]) in GroupKeys(es, keyOf)
      {
        if i < |es| - 1 {
          assert es[i] == p[i];
        }
      }
      forall k | k in GroupKeys(es, keyOf)
        ensures FirstAt(es, keyOf, k) < |es|
      {
        if k in GroupKeys(p, keyOf) {
          FirstAtPrefix(es, keyOf, k);
        } else {
          assert keyOf(es[|es| - 1]) == k;
        }
      }
    }
  }

  /** Dropping the last expense keeps the first occurrence of a key that
      occurs before it. */
  lemma FirstAtPrefix(es: seq<Expense>, keyOf: KeyOf, k: string)
    requires |es| > 0
    requires FirstAt(es[..|es| - 1], keyOf, k) < |es| - 1
    ensures FirstAt(es, keyOf, k) == FirstAt(es[..|es| - 1], keyOf, k)
  {
    var p := es[..|es| - 1];
    var q := FirstAt(p, keyOf, k);
    var r := FirstAt(es, keyOf, k);
    assert p[q] == es[q];
    forall j | 0 <= j < q ensures keyOf(es[j]) != k {
      assert p[j] == es[j];
    }
  }

  /** Object.keys order: a key listed earlier first occurs earlier. */
  lemma {:induction false} GroupKeysFirstOccurrence(es: seq<Expense>, keyOf: KeyOf)
    ensures forall i, j :: 0 <= i < j < |GroupKeys(es, keyOf)| ==>
      FirstAt(es, keyOf, GroupKeys(es, keyOf)[i]) < FirstAt(es, keyOf, GroupKeys(es, keyOf)[j])
    decreases |es|
  {
    if |es| > 0 {
      var p := es[..|es| - 1];
      var keys := GroupKeys(es, keyOf);
      var prev := GroupKeys(p, keyOf);
      GroupKeysFirstOccurrence(p, keyOf);
      GroupKeysExact(p, keyOf);
      forall i | 0 <= i < |prev|
        ensures FirstAt(es, keyOf, prev[i]) == FirstAt(p, keyOf, prev[i]) < |p|
      {
        FirstAtPrefix(es, keyOf, prev[i]);
      }
      if keys != prev {
        var k := keyOf(es[|es| - 1]);
        assert keys == prev + [k] && k !in prev;
        assert FirstAt(es, keyOf, k) == |p| by {
          var r := FirstAt(es, keyOf, k);
          if r < |p| {
            assert false;
          }
        }
        forall i, j | 0 <= i < j < |keys|
          ensures FirstAt(es, keyOf, keys[i]) < FirstAt(es, keyOf, keys[j])
        {
          if j < |prev| {
            assert keys[i] == prev[i] && keys[j] == prev[j];
            assert FirstAt(p, keyOf, prev[i]) < FirstAt(p, keyOf, prev[j]);
          } else {
            assert keys[i] == prev[i] && keys[j] == k;
          }
        }
      }
    }
  }

  /** `data[k]` is defined exactly for the listed keys. */
  lemma {:induction false} AccDefinedForKeys(es: seq<Expense>, keyOf: KeyOf, k: string)
    ensures Acc(es, keyOf, k).Some? <==> k in GroupKeys(es, keyOf)
    decreases |es|
  {
    if |es| > 0 {
      AccDefinedForKeys(es[..|es| - 1], keyOf, k);
    }
  }

  /** With every amount present, each group holds the exact sum of its amounts. */
  lemma {:induction false} AccIsGroupSum(es: seq<Expense>, keyOf: KeyOf, k: string)
    requires AllPresent(es)
    requires k in GroupKeys(es, keyOf)
    ensures Acc(es, keyOf, k) == Some(Finite(GroupSum(es, keyOf, k)))
    decreases |es|
  {
    var p := es[..|es| - 1];
    AccDefinedForKeys(p, keyOf, k);
    if k in GroupKeys(p, keyOf) {
      AccIsGroupSum(p, keyOf, k);
    } else {
      GroupSumAbsent(p, keyOf, k);
    }
  }

  /** A key with no expense sums to 0. */
  lemma {:induction false} GroupSumAbsent(es: seq<Expense>, keyOf: KeyOf, k: string)
    requires k !in GroupKeys(es, keyOf)
    ensures GroupSum(es, keyOf, k) == 0
    decreases |es|
  {
    if |es| > 0 {
      GroupSumAbsent(es[..|es| - 1], keyOf, k);
    }
  }

  /** The quirk of `|| 0`: an expense with a missing amount turns its group
      into `NaN`, and the next present amount of that group starts it afresh,
      so only the amounts after the last missing one are counted. */
  lemma {:induction false} AccRestartsAfterMissing(es: seq<Expense>, m: Expense, fs: seq<Expense>, keyOf: KeyOf)
    requires m.amount.None?
    requires AllPresent(fs)
    ensures Acc(es + [m] + fs, keyOf, keyOf(m)) ==
      Some(if keyOf(m) in GroupKeys(fs, keyOf) then Finite(GroupSum(fs, keyOf, keyOf(m))) else NaN)
    decreases |fs|
  {
    var k := keyOf(m);
    var all := es + [m] + fs;
    if |fs| == 0 {
      assert all[..|all| - 1] == es;
    } else {
      var f := fs[..|fs| - 1];
      assert all[..|all| - 1] == es + [m] + f;
      assert AllPresent(f) by {
        forall i | 0 <= i < |f| ensures f[i].amount.Some? { assert f[i] == fs[i]; }
      }
      AccRestartsAfterMissing(es, m, f, keyOf);
      if k !in GroupKeys(f, keyOf) {
        GroupSumAbsent(f, keyOf, k);
      }
    }
  }

  // ---------------------------------------------------------------------------
  // The loop itself
  // ---------------------------------------------------------------------------

  /** One `forEach` filling the `data` object (AnalyticsDashboard.jsx:32-36
      and 56-59). `keys` is the object's key order, `data` its entries. */
  method Aggregate(es: seq<Expense>, keyOf: KeyOf) returns (keys: seq<string>, data: map<string, Num>)
    ensures keys == GroupKeys(es, keyOf)
    ensures forall k :: k in data <==> k in keys
    ensures forall k :: k in data ==> Some(data[k]) == Acc(es, keyOf, k)
  {
    keys := [];
    data := map[];
    for i := 0 to |es|
      invariant keys == GroupKeys(es[..i], keyOf)
      invariant forall k :: k in data <==> k in keys
      invariant forall k :: k in data ==> Some(data[k]) == Acc(es[..i], keyOf, k)
    {
      ghost var cur, nxt := es[..i], es[..i + 1];
      assert nxt[..i] == cur && nxt[i] == es[i];
      assert forall k :: Acc(nxt, keyOf, k) == (if keyOf(es[i]) == k then Some(AddTo(Acc(cur, keyOf, k), ParsedAmount(es[i]))) else Acc(cur, keyOf, k));
      var key := keyOf(es[i]);
      AccDefinedForKeys(cur, keyOf, key);
      var entry := if key in data then Some(data[key]) else None;
      if key !in data {
        keys := keys + [key];
      }
      data := data[key := AddTo(entry, ParsedAmount(es[i]))];
    }
    assert es[..|es|] == es;
  }

  // ---------------------------------------------------------------------------
  // Sorting the month labels
  // ---------------------------------------------------------------------------

  predicate Sorted(s: seq<string>)
  {
    forall i, j :: 0 <= i < j < |s| ==> !StrLess(s[j], s[i])
  }

  function Insert(x: string, s: seq<string>): (r: seq<string>)
    ensures multiset(r) == multiset(s) + multiset{x}
  {
    if |s| == 0 then [x]
    else
      assert s == [s[0]] + s[1..];
      if StrLess(s[0], x) then [s[0]] + Insert(x, s[1..]) else [x] + s
  }

  /** `!StrLess(b, a)` chains, as the default order is total. */
  lemma NotLessTransitive(a: string, b: string, c: string)
    requires !StrLess(b, a) && !StrLess(c, b)
    ensures !StrLess(c, a)
  {
    if StrLess(c, a) {
      if a == b {
      } else if b == c {
      } else {
        StrLessTotal(a, b);
        StrLessTotal(b, c);
        StrLessTransitive(a, b, c);
        StrLessAsymmetric(a, c);
      }
    }
  }

  lemma {:induction false} InsertSorted(x: string, s: seq<string>)
    requires Sorted(s)
    ensures Sorted(Insert(x, s))
    decreases |s|
  {
    if |s| > 0 {
      if StrLess(s[0], x) {
        InsertSorted(x, s[1..]);
        var r := Insert(x, s[1..]);
        forall j | 0 <= j < |r| ensures !StrLess(r[j], s[0]) {
          assert r[j] in multiset(r);
          if r[j] == x {
            StrLessAsymmetric(s[0], x);
          } else {
            assert r[j] in multiset(s[1..]);
            var q :| 0 <= q < |s[1..]| && s[1..][q] == r[j];
            assert s[q + 1] == r[j];
          }
        }
      } else {
        forall j | 0 < j < |s| ensures !StrLess(s[j], x) {
          NotLessTransitive(x, s[0], s[j]);
        }
      }
    }
  }

  /** `.sort()` on the keys: insertion sort by UTF-16 code units. */
  function SortStrings(s: seq<string>): (r: seq<string>)
    ensures multiset(r) == multiset(s)
  {
    if |s| == 0 then []
    else
      assert s == [s[0]] + s[1..];
      Insert(s[0], SortStrings(s[1..]))
  }

  lemma {:induction false} SortStringsSorted(s: seq<string>)
    ensures Sorted(SortStrings(s))
  {
    if |s| > 0 {
      SortStringsSorted(s[1..]);
      InsertSorted(s[0], SortStrings(s[1..]));
    }
  }

  /** Sorting distinct labels gives them in strictly ascending order. */
  lemma SortedDistinctAscending(s: seq<string>)
    requires Distinct(s)
    ensures var r := SortStrings(s);
      |r| == |s| && forall i, j :: 0 <= i < j < |r| ==> StrLess(r[i], r[j])
  {
    var r := SortStrings(s);
    assert |r| == |multiset(r)| == |multiset(s)| == |s|;
    SortStringsSorted(s);
    forall i, j | 0 <= i < j < |r| ensures StrLess(r[i], r[j]) {
      DistinctMultiset(s, r);
      StrLessTotal(r[i], r[j]);
    }
  }

  /** Distinct elements stay distinct under a permutation. */
  lemma DistinctMultiset(s: seq<string>, r: seq<string>)
    requires Distinct(s) && multiset(r) == multiset(s)
    ensures Distinct(r)
  {
    forall x | x in multiset(s) ensures multiset(s)[x] == 1 {
      DistinctCount(s, x);
    }
    forall i, j | 0 <= i < j < |r| ensures r[i] != r[j] {
      if r[i] == r[j] {
        TwiceInMultiset(r, i, j);
        assert false;
      }
    }
  }

  lemma TwiceInMultiset(r: seq<string>, i: nat, j: nat)
    requires i < j < |r| && r[i] == r[j]
    ensures multiset(r)[r[i]] >= 2
  {
    assert r == r[..i] + [r[i]] + r[i + 1..j] + [r[j]] + r[j + 1..];
  }

  lemma {:induction false} DistinctCount(s: seq<string>, x: string)
    requires Distinct(s) && x in s
    ensures multiset(s)[x] == 1
  {
    if s[0] == x {
      assert s == [x] + s[1..];
      assert x !in s[1..];
    } else {
      assert s == [s[0]] + s[1..];
      DistinctCount(s[1..], x);
    }
  }

  // ---------------------------------------------------------------------------
  // The chart data
  // ---------------------------------------------------------------------------

  /** `labels.map(label => data[label])`: a label without an entry would be
      `undefined`, which the loop never produces. */
  function ValuesOf(labels: seq<string>, es: seq<Expense>, keyOf: KeyOf): (vs: seq<Num>)
    ensures |vs| == |labels|
  {
    seq(|labels|, i requires 0 <= i < |labels| => Acc(es, keyOf, labels[i]).GetOr(NaN))
  }

  const PALETTE: seq<string> := [
    "#FF6384", "#36A2EB", "#FFCE56", "#4BC0C0", "#9966FF",
    "#FF9F40", "#C9CBCE", "#A8DADC", "#F7CAC9", "#83AF9B"]

  /** `labels.map((_, i) => backgroundColors[i % backgroundColors.length])`. */
  function Colours(labels: seq<string>): (cs: seq<string>)
    ensures |cs| == |labels|
  {
    seq(|labels|, i requires 0 <= i < |labels| => PALETTE[i % |PALETTE|])
  }

  lemma PaletteDistinct()
    ensures Distinct(PALETTE)
  {
    forall i, j | 0 <= i < j < |PALETTE| ensures PALETTE[i] != PALETTE[j] {
      assert PALETTE[i][1..3] != PALETTE[j][1..3] || PALETTE[i][3..] != PALETTE[j][3..];
    }
  }

  /** One colour per label from the ten-colour palette, repeating every ten
      slices, and any ten consecutive slices all differ. */
  lemma ColoursCycle(labels: seq<string>)
    ensures var cs := Colours(labels);
      && (forall i :: 0 <= i < |cs| ==> cs[i] in PALETTE)
      && (forall i :: 0 <= i < 10 && i < |cs| ==> cs[i] == PALETTE[i])
      && (forall i :: 0 <= i && i + 10 < |cs| ==> cs[i + 10] == cs[i])
      && (forall i, j :: 0 <= i < j < |cs| && j - i < 10 ==> cs[i] != cs[j])
  {
    var cs := Colours(labels);
    PaletteDistinct();
    forall i | 0 <= i && i + 10 < |cs| ensures cs[i + 10] == cs[i] {
      ModShift(i);
    }
    forall i, j | 0 <= i < j < |cs| && j - i < 10 ensures cs[i] != cs[j] {
      ModDiffers(i, j);
    }
  }

  lemma ModShift(i: nat)
    ensures (i + 10) % 10 == i % 10
  {
    assert i == 10 * (i / 10) + i % 10;
    assert i + 10 == 10 * (i / 10 + 1) + i % 10;
  }

  lemma ModDiffers(i: nat, j: nat)
    requires i < j < i + 10
    ensures i % 10 != j % 10
  {
    assert i == 10 * (i / 10) + i % 10;
    assert j == 10 * (j / 10) + j % 10;
  }

  /** What the dashboard shows. */
  datatype View =
    | Placeholder   // "Add expenses to see analytics!"
    | Charts(
        monthLabels: seq<string>, monthValues: seq<Num>,
        categoryLabels: seq<string>, categoryValues: seq<Num>, colours: seq<string>,
        total: int)

  /** The sum of a dataset, `NaN` as soon as one value is. */
  function NumTotal(vs: seq<Num>): Num
  {
    if |vs| == 0 then Finite(0)
    else match (vs[0], NumTotal(vs[1..]))
      case (Finite(a), Finite(b)) => Finite(a + b)
      case _ => NaN
  }

  /** The grand total `totalSpent` (AnalyticsDashboard.jsx:176-179). */
  function TotalSpent(es: seq<Expense>): int
  {
    SumAmounts(es)
  }

  /** `monthlySpendingData` (AnalyticsDashboard.jsx:31-52): the months in
      ascending order and their sums. */
  method MonthlyData(es: seq<Expense>) returns (labels: seq<string>, values: seq<Num>)
    ensures labels == SortStrings(GroupKeys(es, MonthOf))
    ensures values == ValuesOf(labels, es, MonthOf)
  {
    var months, data := Aggregate(es, MonthOf);
    labels := SortStrings(months);
    forall m | m in labels ensures m in data {
      assert m in multiset(labels);
    }
    values := seq(|labels|, i requires 0 <= i < |labels| => data[labels[i]]);
  }

  /** `categorySpendingData` (AnalyticsDashboard.jsx:55-79): the categories
      in first-occurrence order, their sums and a colour each. */
  method CategoryData(es: seq<Expense>) returns (labels: seq<string>, amounts: seq<Num>, colours: seq<string>)
    ensures labels == GroupKeys(es, CategoryOf)
    ensures amounts == ValuesOf(labels, es, CategoryOf)
    ensures colours == Colours(labels)
  {
    var data;
    labels, data := Aggregate(es, CategoryOf);
    amounts := seq(|labels|, i requires 0 <= i < |labels| => data[labels[i]]);
    colours := Colours(labels);
  }

  /** The dashboard for a list of expenses (AnalyticsDashboard.jsx:31-79,
      176-183): nothing but the placeholder for an empty list. */
  method Render(es: seq<Expense>) returns (v: View)
    ensures |es| == 0 <==> v.Placeholder?
    ensures v.Charts? ==>
      && v.monthLabels == SortStrings(GroupKeys(es, MonthOf))
      && v.monthValues == ValuesOf(v.monthLabels, es, MonthOf)
      && v.categoryLabels == GroupKeys(es, CategoryOf)
      && v.categoryValues == ValuesOf(v.categoryLabels, es, CategoryOf)
      && v.colours == Colours(v.categoryLabels)
      && v.total == TotalSpent(es)
  {
    var months, monthValues := MonthlyData(es);
    var categories, amounts, colours := CategoryData(es);
    var total := TotalSpent(es);
    if |es| == 0 {
      return Placeholder;
    }
    v := Charts(months, monthValues, categories, amounts, colours, total);
  }

  // ---------------------------------------------------------------------------
  // The groups add up to the total
  // ---------------------------------------------------------------------------

  /** The sum of the groups named by `labels`. */
  function SumOver(labels: seq<string>, es: seq<Expense>, keyOf: KeyOf): int
  {
    if |labels| == 0 then 0 else GroupSum(es, keyOf, labels[0]) + SumOver(labels[1..], es, keyOf)
  }

  lemma {:induction false} SumOverSnoc(labels: seq<string>, k: string, es: seq<Expense>, keyOf: KeyOf)
    ensures SumOver(labels + [k], es, keyOf) == SumOver(labels, es, keyOf) + GroupSum(es, keyOf, k)
  {
    if |labels| > 0 {
      assert (labels + [k])[1..] == labels[1..] + [k];
      SumOverSnoc(labels[1..], k, es, keyOf);
    }
  }

  /** Appending one expense adds its amount to the group of its key, if listed once. */
  lemma {:induction false} SumOverAppendExpense(labels: seq<string>, es: seq<Expense>, e: Expense, keyOf: KeyOf)
    requires Distinct(labels)
    ensures SumOver(labels, es + [e], keyOf) ==
      SumOver(labels, es, keyOf) + (if keyOf(e) in labels then AmountOrZero(e) else 0)
  {
    if |labels| > 0 {
      assert (es + [e])[..|es + [e]| - 1] == es;
      SumOverAppendExpense(labels[1..], es, e, keyOf);
      assert labels == [labels[0]] + labels[1..];
    }
  }

  /** The groups, each counted once, make up the total. */
  lemma {:induction false} GroupsMakeTotal(es: seq<Expense>, keyOf: KeyOf)
    ensures SumOver(GroupKeys(es, keyOf), es, keyOf) == SumAmounts(es)
    decreases |es|
  {
    if |es| > 0 {
      var p := es[..|es| - 1];
      var e := es[|es| - 1];
      var k := keyOf(e);
      var prev := GroupKeys(p, keyOf);
      assert es == p + [e];
      GroupsMakeTotal(p, keyOf);
      GroupKeysExact(p, keyOf);
      SumOverAppendExpense(prev, p, e, keyOf);
      SumAmountsAppend(p, [e]);
      if k !in prev {
        SumOverSnoc(prev, k, es, keyOf);
        GroupSumAbsent(p, keyOf, k);
      }
    }
  }

  /** Reordering the labels does not change the sum. */
  lemma {:induction false} SumOverPermutation(a: seq<string>, b: seq<string>, es: seq<Expense>, keyOf: KeyOf)
    requires multiset(a) == multiset(b)
    ensures SumOver(a, es, keyOf) == SumOver(b, es, keyOf)
    decreases |a|
  {
    if |a| == 0 {
      assert |b| == |multiset(b)| == 0;
    } else {
      var i := MatchHead(a, b);
      SumOverPermutation(a[1..], b[..i] + b[i + 1..], es, keyOf);
      SumOverRemove(b, i, es, keyOf);
      assert SumOver(a, es, keyOf) == GroupSum(es, keyOf, a[0]) + SumOver(a[1..], es, keyOf);
    }
  }

  /** The head of `a` sits at some index `i` of its permutation `b`, and the
      rest of `a` is a permutation of `b` without that element. */
  lemma MatchHead(a: seq<string>, b: seq<string>) returns (i: nat)
    requires |a| > 0 && multiset(a) == multiset(b)
    ensures i < |b| && b[i] == a[0]
    ensures multiset(a[1..]) == multiset(b[..i] + b[i + 1..])
  {
    assert a[0] in multiset(b);
    i :| 0 <= i < |b| && b[i] == a[0];
    MultisetWithout(a, 0);
    MultisetWithout(b, i);
    assert a[..0] + a[1..] == a[1..];
  }

  /** Removing the element at `i` removes one copy of it from the multiset. */
  lemma MultisetWithout(b: seq<string>, i: nat)
    requires i < |b|
    ensures multiset(b[..i] + b[i + 1..]) == multiset(b) - multiset{b[i]}
  {
    assert b == b[..i] + [b[i]] + b[i + 1..];
    assert multiset(b) == multiset(b[..i]) + multiset{b[i]} + multiset(b[i + 1..]);
  }

  lemma {:induction false} SumOverRemove(b: seq<string>, i: nat, es: seq<Expense>, keyOf: KeyOf)
    requires i < |b|
    ensures SumOver(b, es, keyOf) == GroupSum(es, keyOf, b[i]) + SumOver(b[..i] + b[i + 1..], es, keyOf)
    decreases |b|
  {
    if i > 0 {
      assert (b[..i] + b[i + 1..])[1..] == b[1..][..i - 1] + b[1..][i..];
      SumOverRemove(b[1..], i - 1, es, keyOf);
    } else {
      assert b[..0] + b[1..] == b[1..];
    }
  }

  /** The chart values of listed groups are their exact sums when every amount is present. */
  lemma {:induction false} ValuesTotal(labels: seq<string>, es: seq<Expense>, keyOf: KeyOf)
    requires AllPresent(es)
    requires forall k :: k in labels ==> k in GroupKeys(es, keyOf)
    ensures NumTotal(ValuesOf(labels, es, keyOf)) == Finite(SumOver(labels, es, keyOf))
  {
    if |labels| > 0 {
      AccIsGroupSum(es, keyOf, labels[0]);
      assert ValuesOf(labels, es, keyOf)[1..] == ValuesOf(labels[1..], es, keyOf);
      ValuesTotal(labels[1..], es, keyOf);
    }
  }

  /** With every amount present, the monthly values and the category values
      both add up to `totalSpent`. */
  lemma ChartsAddUpToTotal(es: seq<Expense>)
    requires AllPresent(es)
    ensures NumTotal(ValuesOf(SortStrings(GroupKeys(es, MonthOf)), es, MonthOf)) == Finite(TotalSpent(es))
    ensures NumTotal(ValuesOf(GroupKeys(es, CategoryOf), es, CategoryOf)) == Finite(TotalSpent(es))
  {
    var months := GroupKeys(es, MonthOf);
    var sorted := SortStrings(months);
    forall k | k in sorted ensures k in months {
      assert k in multiset(sorted);
    }
    ValuesTotal(sorted, es, MonthOf);
    SumOverPermutation(sorted, months, es, MonthOf);
    GroupsMakeTotal(es, MonthOf);
    ValuesTotal(GroupKeys(es, CategoryOf), es, CategoryOf);
    GroupsMakeTotal(es, CategoryOf);
  }
}
