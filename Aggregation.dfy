/** The total of the editor: the nested `reduce` of the effect, written as
    the two left folds it is, beside a reference definition of "the sum of
    every numeric entry", with the lemmas that connect them and say how the
    total moves under each edit. */
module Aggregation {
  import opened MealGroups

  // ---------------------------------------------------------------------
  // Reference sums
  // ---------------------------------------------------------------------

  /** The sum of `f` over the elements of `s`. */
  function SumOf<T>(s: seq<T>, f: T -> real): real
  {
    if s == [] then 0.0 else f(s[0]) + SumOf(s[1..], f)
  }

  function Identity(x: real): real
  {
    x
  }

  /** The sum of a sequence of numbers. */
  function Sum(rs: seq<real>): real
  {
    SumOf(rs, Identity)
  }

  /** The values of the numeric entries of `es`, in order; blanks are dropped. */
  function Numerics(es: seq<Entry>): seq<real>
  {
    if es == [] then []
    else (match es[0] case Blank => [] case Num(v) => [v]) + Numerics(es[1..])
  }

  /** Every entry of every group that has a list, group after group. */
  function AllEntries(gs: seq<MealGroup>): seq<Entry>
  {
    if gs == [] then []
    else (match gs[0].numbers case None => [] case Some(ns) => ns) + AllEntries(gs[1..])
  }

  /** What one group adds to the total: the sum of its entries, or 0 when it
      has no list. */
  function Contribution(g: MealGroup): real
  {
    match g.numbers
    case None => 0.0
    case Some(ns) => SumOf(ns, Value)
  }

  // ---------------------------------------------------------------------
  // The aggregation as the source computes it
  // ---------------------------------------------------------------------

  /** The inner `reduce` over a group's entries, starting from `acc`.  Its
      guard `!isNaN(+curr) && !isNaN(+acc)` always holds: `+curr` is a
      number for both kinds of entry and `acc` starts at 0 and only ever
      has numbers added to it. */
  function FoldEntries(ns: seq<Entry>, acc: real): real
  {
    if ns == [] then acc else FoldEntries(ns[1..], acc + Value(ns[0]))
  }

  /** `group.numbers?.reduce(..., 0)`: `None` stands for `undefined`, the
      result when the list is absent. */
  function GroupSum(g: MealGroup): Option<real>
  {
    match g.numbers
    case None => None
    case Some(ns) => Some(FoldEntries(ns, 0.0))
  }

  /** The outer `reduce` over the groups, starting from `acc`: a group sum
      whose coercion is NaN (an `undefined` one) is skipped. */
  function TotalFrom(gs: seq<MealGroup>, acc: real): real
  {
    if gs == [] then acc
    else
      var next := match GroupSum(gs[0]) case None => acc case Some(s) => s + acc;
      TotalFrom(gs[1..], next)
  }

  /** The value the effect stores in `totalSum`. */
  function Total(gs: seq<MealGroup>): real
  {
    TotalFrom(gs, 0.0)
  }

  // ---------------------------------------------------------------------
  // Generic facts about SumOf
  // ---------------------------------------------------------------------

  lemma {:induction false} SumOfConcat<T>(a: seq<T>, b: seq<T>, f: T -> real)
    ensures SumOf(a + b, f) == SumOf(a, f) + SumOf(b, f)
  {
    if a == [] {
      assert a + b == b;
    } else {
      assert (a + b)[1..] == a[1..] + b;
      SumOfConcat(a[1..], b, f);
    }
  }

  lemma SumOfUpdate<T>(s: seq<T>, i: nat, x: T, f: T -> real)
    requires i < |s|
    ensures SumOf(s[i := x], f) == SumOf(s, f) - f(s[i]) + f(x)
  {
    assert s == s[..i] + [s[i]] + s[i+1..];
    assert s[i := x] == s[..i] + [x] + s[i+1..];
    SumOfConcat(s[..i] + [s[i]], s[i+1..], f);
    SumOfConcat(s[..i], [s[i]], f);
    SumOfConcat(s[..i] + [x], s[i+1..], f);
    SumOfConcat(s[..i], [x], f);
  }

  lemma SumOfRemove<T>(s: seq<T>, i: nat, f: T -> real)
    requires i < |s|
    ensures SumOf(s[..i] + s[i+1..], f) == SumOf(s, f) - f(s[i])
  {
    assert s == s[..i] + ([s[i]] + s[i+1..]);
    SumOfConcat(s[..i], [s[i]] + s[i+1..], f);
    SumOfConcat([s[i]], s[i+1..], f);
    SumOfConcat(s[..i], s[i+1..], f);
  }

  /** A sum does not depend on the order of its terms. */
  lemma {:induction false} SumOfPermutation<T>(a: seq<T>, b: seq<T>, f: T -> real)
    requires multiset(a) == multiset(b)
    ensures SumOf(a, f) == SumOf(b, f)
    decreases |a|
  {
    if a == [] {
      assert |b| == |multiset(b)| == 0;
    } else {
      var x := a[0];
      assert x in multiset(b);
      var j :| 0 <= j < |b| && b[j] == x;
      var rest := b[..j] + b[j+1..];
      assert b == b[..j] + [x] + b[j+1..];
      assert multiset(b) == multiset(rest) + multiset{x};
      assert a == [x] + a[1..];
      assert multiset(a) == multiset{x} + multiset(a[1..]);
      assert multiset(a[1..]) == multiset(a) - multiset{x};
      assert multiset(rest) == multiset(b) - multiset{x};
      SumOfPermutation(a[1..], rest, f);
      SumOfRemove(b, j, f);
    }
  }

  // ---------------------------------------------------------------------
  // The source's folds compute the reference sums
  // ---------------------------------------------------------------------

  /** The inner reduce adds the sum of the entries to its start value. */
  lemma {:induction false} FoldEntriesIsSum(ns: seq<Entry>, acc: real)
    ensures FoldEntries(ns, acc) == acc + SumOf(ns, Value)
  {
    if ns != [] {
      FoldEntriesIsSum(ns[1..], acc + Value(ns[0]));
    }
  }

  /** The outer reduce adds every group's contribution to its start value. */
  lemma {:induction false} TotalFromIsSumAll(gs: seq<MealGroup>, acc: real)
    ensures TotalFrom(gs, acc) == acc + SumOf(gs, Contribution)
  {
    if gs != [] {
      match gs[0].numbers {
        case None =>
        case Some(ns) => FoldEntriesIsSum(ns, 0.0);
      }
      var next := match GroupSum(gs[0]) case None => acc case Some(s) => s + acc;
      TotalFromIsSumAll(gs[1..], next);
    }
  }

  lemma TotalIsSumOfContributions(gs: seq<MealGroup>)
    ensures Total(gs) == SumOf(gs, Contribution)
  {
    TotalFromIsSumAll(gs, 0.0);
  }

  lemma {:induction false} SumOfEntriesIsSumOfNumerics(es: seq<Entry>)
    ensures SumOf(es, Value) == Sum(Numerics(es))
  {
    if es != [] {
      SumOfEntriesIsSumOfNumerics(es[1..]);
      var head := match es[0] case Blank => [] case Num(v) => [v];
      SumOfConcat(head, Numerics(es[1..]), Identity);
    }
  }

  lemma {:induction false} ContributionsAreSumOfAllEntries(gs: seq<MealGroup>)
    ensures SumOf(gs, Contribution) == SumOf(AllEntries(gs), Value)
  {
    if gs != [] {
      ContributionsAreSumOfAllEntries(gs[1..]);
      var head := match gs[0].numbers case None => [] case Some(ns) => ns;
      SumOfConcat(head, AllEntries(gs[1..]), Value);
    }
  }

  /** The total is the arithmetic sum of all numeric entries of all groups;
      blanks and absent lists add nothing. */
  lemma TotalIsSumOfNumbers(gs: seq<MealGroup>)
    ensures Total(gs) == Sum(Numerics(AllEntries(gs)))
  {
    TotalIsSumOfContributions(gs);
    ContributionsAreSumOfAllEntries(gs);
    SumOfEntriesIsSumOfNumerics(AllEntries(gs));
  }

  // ---------------------------------------------------------------------
  // Degenerate inputs
  // ---------------------------------------------------------------------

  lemma {:induction false} SumOfBlanks(ns: seq<Entry>)
    requires forall j :: 0 <= j < |ns| ==> ns[j] == Blank
    ensures SumOf(ns, Value) == 0.0
  {
    if ns != [] {
      SumOfBlanks(ns[1..]);
    }
  }

  lemma {:induction false} ContributionsOfBlankGroups(gs: seq<MealGroup>)
    requires forall k, j :: 0 <= k < |gs| && gs[k].numbers.Some? && 0 <= j < |gs[k].numbers.value|
                            ==> gs[k].numbers.value[j] == Blank
    ensures SumOf(gs, Contribution) == 0.0
  {
    if gs != [] {
      if gs[0].numbers.Some? {
        SumOfBlanks(gs[0].numbers.value);
      }
      ContributionsOfBlankGroups(gs[1..]);
    }
  }

  /** No groups, groups with empty or absent lists and groups of blanks all
      give a total of 0, since both reduces start from 0. */
  lemma TotalOfBlankGroups(gs: seq<MealGroup>)
    requires forall k, j :: 0 <= k < |gs| && gs[k].numbers.Some? && 0 <= j < |gs[k].numbers.value|
                            ==> gs[k].numbers.value[j] == Blank
    ensures Total(gs) == 0.0
  {
    TotalIsSumOfContributions(gs);
    ContributionsOfBlankGroups(gs);
  }

  /** A group without a list, wherever it stands, leaves the total as it is. */
  lemma TotalSkipsAbsentGroup(gs: seq<MealGroup>, k: nat, name: string)
    requires k <= |gs|
    ensures Total(gs[..k] + [MealGroup(name, None)] + gs[k..]) == Total(gs)
  {
    var g := MealGroup(name, None);
    assert gs == gs[..k] + gs[k..];
    TotalIsSumOfContributions(gs);
    TotalIsSumOfContributions(gs[..k] + [g] + gs[k..]);
    SumOfConcat(gs[..k] + [g], gs[k..], Contribution);
    SumOfConcat(gs[..k], [g], Contribution);
    SumOfConcat(gs[..k], gs[k..], Contribution);
  }

  /** The default template adds up to 0. */
  lemma DefaultTotalIsZero()
    ensures Total(DefaultGroups()) == 0.0
  {
  }

  // ---------------------------------------------------------------------
  // Order independence
  // ---------------------------------------------------------------------

  /** Reordering the groups does not change the total. */
  lemma TotalOfReorderedGroups(gs: seq<MealGroup>, hs: seq<MealGroup>)
    requires multiset(gs) == multiset(hs)
    ensures Total(gs) == Total(hs)
  {
    TotalIsSumOfContributions(gs);
    TotalIsSumOfContributions(hs);
    SumOfPermutation(gs, hs, Contribution);
  }

  /** Reordering the entries inside one group does not change the total. */
  lemma TotalOfReorderedEntries(gs: seq<MealGroup>, g: nat, ns: seq<Entry>)
    requires g < |gs| && gs[g].numbers.Some?
    requires multiset(gs[g].numbers.value) == multiset(ns)
    ensures Total(gs[g := gs[g].(numbers := Some(ns))]) == Total(gs)
  {
    SumOfPermutation(gs[g].numbers.value, ns, Value);
    TotalAfterReplacingGroup(gs, g, gs[g].(numbers := Some(ns)));
  }

  // ---------------------------------------------------------------------
  // How each edit moves the total
  // ---------------------------------------------------------------------

  lemma TotalAfterReplacingGroup(gs: seq<MealGroup>, g: nat, grp: MealGroup)
    requires g < |gs|
    ensures Total(gs[g := grp]) == Total(gs) - Contribution(gs[g]) + Contribution(grp)
  {
    TotalIsSumOfContributions(gs);
    TotalIsSumOfContributions(gs[g := grp]);
    SumOfUpdate(gs, g, grp, Contribution);
  }

  /** Overwriting entry `i` of group `g` with `e` changes the total by the
      difference of the two values. */
  lemma TotalAfterSetEntry(gs: seq<MealGroup>, g: nat, i: nat, e: Entry)
    requires g < |gs| && gs[g].numbers.Some? && i < |gs[g].numbers.value|
    ensures var ns := gs[g].numbers.value;
      Total(gs[g := gs[g].(numbers := Some(ns[i := e]))]) == Total(gs) - Value(ns[i]) + Value(e)
  {
    var ns := gs[g].numbers.value;
    SumOfUpdate(ns, i, e, Value);
    TotalAfterReplacingGroup(gs, g, gs[g].(numbers := Some(ns[i := e])));
  }

  /** Appending a blank to group `g` leaves the total unchanged. */
  lemma TotalAfterAppendBlank(gs: seq<MealGroup>, g: nat)
    requires g < |gs| && gs[g].numbers.Some?
    ensures Total(gs[g := gs[g].(numbers := Some(gs[g].numbers.value + [Blank]))]) == Total(gs)
  {
    var ns := gs[g].numbers.value;
    SumOfConcat(ns, [Blank], Value);
    TotalAfterReplacingGroup(gs, g, gs[g].(numbers := Some(ns + [Blank])));
  }

  /** Dropping entry `i` of group `g` takes its value off the total. */
  lemma TotalAfterRemoveEntry(gs: seq<MealGroup>, g: nat, i: nat)
    requires g < |gs| && gs[g].numbers.Some? && i < |gs[g].numbers.value|
    ensures var ns := gs[g].numbers.value;
      Total(gs[g := gs[g].(numbers := Some(ns[..i] + ns[i+1..]))]) == Total(gs) - Value(ns[i])
  {
    var ns := gs[g].numbers.value;
    SumOfRemove(ns, i, Value);
    TotalAfterReplacingGroup(gs, g, gs[g].(numbers := Some(ns[..i] + ns[i+1..])));
  }
}
