/** The editor component: the list of meal groups, the displayed total and
    the browser storage it writes through to.  Each handler followed by the
    effect that recomputes the total and saves the list is one step. */
module Editor {
  import opened MealGroups
  import opened Aggregation

  /** The one storage key the editor reads and writes. */
  const StorageKey: string := "mealGroups"

  /** `ns.filter((_, i) => i !== index)`: every entry whose position is not
      `index`, in order.  Written from the end so that each kept entry is
      tested against its own position. */
  function WithoutIndex(ns: seq<Entry>, index: int): seq<Entry>
  {
    if ns == [] then []
    else WithoutIndex(ns[..|ns| - 1], index) + (if |ns| - 1 != index then [ns[|ns| - 1]] else [])
  }

  /** The filter drops exactly position `index` when it exists, keeping the
      rest in order, and keeps everything when no position matches. */
  lemma {:induction false} WithoutIndexDropsPosition(ns: seq<Entry>, index: int)
    ensures WithoutIndex(ns, index) == if 0 <= index < |ns| then ns[..index] + ns[index + 1..] else ns
  {
    if ns != [] {
      var m := |ns| - 1;
      var p := ns[..m];
      WithoutIndexDropsPosition(p, index);
      assert ns == p + [ns[m]];
      if index == m {
        assert ns[index + 1..] == [];
      } else if 0 <= index < m {
        assert p[..index] == ns[..index];
        assert p[index + 1..] + [ns[m]] == ns[index + 1..];
      }
    }
  }

  /** Removing the only entry of a list leaves it empty, not blank. */
  lemma RemovingOnlyEntryLeavesEmpty(e: Entry)
    ensures WithoutIndex([e], 0) == []
  {
  }

  class MealGroupEditor {
    /** The `mealGroups` state. */
    var mealGroups: seq<MealGroup>
    /** The `totalSum` state. */
    var totalSum: real
    /** The browser's key-value storage, with stored lists already parsed. */
    var storage: map<string, seq<MealGroup>>

    /** What the effect re-establishes after every change: the displayed
        total is the total of the list, and the list is what is stored. */
    predicate Valid()
      reads this
    {
      totalSum == Total(mealGroups) && StorageKey in storage && storage[StorageKey] == mealGroups
    }

    /** Mounting: the stored list if there is one, else the default
        template; then the first run of the effect. */
    constructor (saved: map<string, seq<MealGroup>>)
      ensures Valid()
      ensures mealGroups == if StorageKey in saved then saved[StorageKey] else DefaultGroups()
      ensures storage == saved[StorageKey := mealGroups]
    {
      mealGroups := if StorageKey in saved then saved[StorageKey] else DefaultGroups();
      totalSum := 0.0;
      storage := saved;
      new;
      RunEffect();
    }

    /** The effect on `mealGroups`: recompute the total and save the list. */
    method RunEffect()
      modifies this
      ensures Valid()
      ensures mealGroups == old(mealGroups)
      ensures storage == old(storage)[StorageKey := mealGroups]
    {
      totalSum := Total(mealGroups);
      storage := storage[StorageKey := mealGroups];
    }

    /** `setMealGroups(updated)` followed by the effect it triggers. */
    method SetMealGroups(updated: seq<MealGroup>)
      modifies this
      ensures Valid()
      ensures mealGroups == updated
      ensures storage == old(storage)[StorageKey := updated]
    {
      mealGroups := updated;
      RunEffect();
    }

    /** `handleNumberChange`, given the already-parsed input: entry
        `numberIndex` of group `groupIndex` becomes `StoredEntry(parsed)`
        and nothing else in the list changes. */
    method HandleNumberChange(parsed: Option<real>, groupIndex: nat, numberIndex: nat)
      requires Valid()
      requires groupIndex < |mealGroups| && mealGroups[groupIndex].numbers.Some?
      requires numberIndex < |mealGroups[groupIndex].numbers.value|
      modifies this
      ensures Valid()
      ensures |mealGroups| == |old(mealGroups)|
      ensures forall k :: 0 <= k < |mealGroups| && k != groupIndex ==> mealGroups[k] == old(mealGroups[k])
      ensures mealGroups[groupIndex].name == old(mealGroups[groupIndex].name)
      ensures mealGroups[groupIndex].numbers.Some?
      ensures var ns, was := mealGroups[groupIndex].numbers.value, old(mealGroups[groupIndex].numbers.value);
        && |ns| == |was|
        && ns[numberIndex] == StoredEntry(parsed)
        && forall j :: 0 <= j < |ns| && j != numberIndex ==> ns[j] == was[j]
      ensures totalSum == old(totalSum) - Value(old(mealGroups[groupIndex].numbers.value[numberIndex]))
                                        + Value(StoredEntry(parsed))
      ensures storage == old(storage)[StorageKey := mealGroups]
    {
      var updated := mealGroups;
      var ns := updated[groupIndex].numbers.value;
      ns := ns[numberIndex := StoredEntry(parsed)];
      updated := updated[groupIndex := updated[groupIndex].(numbers := Some(ns))];
      TotalAfterSetEntry(mealGroups, groupIndex, numberIndex, StoredEntry(parsed));
      SetMealGroups(updated);
    }

    /** `addNumberField`: group `groupIndex` gets one more entry, a blank at
        the end; the total stays as it was. */
    method AddNumberField(groupIndex: nat)
      requires Valid()
      requires groupIndex < |mealGroups| && mealGroups[groupIndex].numbers.Some?
      modifies this
      ensures Valid()
      ensures |mealGroups| == |old(mealGroups)|
      ensures forall k :: 0 <= k < |mealGroups| && k != groupIndex ==> mealGroups[k] == old(mealGroups[k])
      ensures mealGroups[groupIndex].name == old(mealGroups[groupIndex].name)
      ensures mealGroups[groupIndex].numbers == Some(old(mealGroups[groupIndex].numbers.value) + [Blank])
      ensures totalSum == old(totalSum)
      ensures storage == old(storage)[StorageKey := mealGroups]
    {
      var updated := mealGroups;
      var ns := updated[groupIndex].numbers.value;
      ns := ns + [Blank];
      updated := updated[groupIndex := updated[groupIndex].(numbers := Some(ns))];
      TotalAfterAppendBlank(mealGroups, groupIndex);
      SetMealGroups(updated);
    }

    /** `removeNumberField`: group `groupIndex`'s list is replaced by the
        filtered copy; an index that names no entry changes nothing in it. */
    method RemoveNumberField(groupIndex: nat, numberIndex: int)
      requires Valid()
      requires groupIndex < |mealGroups| && mealGroups[groupIndex].numbers.Some?
      modifies this
      ensures Valid()
      ensures |mealGroups| == |old(mealGroups)|
      ensures forall k :: 0 <= k < |mealGroups| && k != groupIndex ==> mealGroups[k] == old(mealGroups[k])
      ensures mealGroups[groupIndex].name == old(mealGroups[groupIndex].name)
      ensures var was := old(mealGroups[groupIndex].numbers.value);
        mealGroups[groupIndex].numbers
          == Some(if 0 <= numberIndex < |was| then was[..numberIndex] + was[numberIndex + 1..] else was)
      ensures var was := old(mealGroups[groupIndex].numbers.value);
        totalSum == if 0 <= numberIndex < |was| then old(totalSum) - Value(was[numberIndex]) else old(totalSum)
      ensures storage == old(storage)[StorageKey := mealGroups]
    {
      var updated := mealGroups;
      var was := updated[groupIndex].numbers.value;
      var kept := WithoutIndex(was, numberIndex);
      WithoutIndexDropsPosition(was, numberIndex);
      updated := updated[groupIndex := updated[groupIndex].(numbers := Some(kept))];
      if 0 <= numberIndex < |was| {
        TotalAfterRemoveEntry(mealGroups, groupIndex, numberIndex);
      } else {
        assert updated == mealGroups;
      }
      SetMealGroups(updated);
    }
  }

  /** A first visit with empty storage: add a field to the first group,
      type 250 into it, delete the template's 0 above it, and delete the
      only entry of the second group. */
  method FirstVisitSession() returns (total: real, first: Option<seq<Entry>>, second: Option<seq<Entry>>, saved: seq<MealGroup>)
    ensures total == 250.0
    ensures first == Some([Num(250.0)])
    ensures second == Some([])
    ensures |saved| == 4
  {
    var editor := new MealGroupEditor(map[]);
    DefaultTotalIsZero();
    assert editor.mealGroups == DefaultGroups();
    assert editor.mealGroups[0].numbers == Some([Num(0.0)]);
    assert editor.mealGroups[1].numbers == Some([Num(0.0)]);
    editor.AddNumberField(0);
    assert [Num(0.0)] + [Blank] == [Num(0.0), Blank];
    assert editor.mealGroups[0].numbers == Some([Num(0.0), Blank]);
    editor.HandleNumberChange(Some(250.0), 0, 1);
    ghost var typed := editor.mealGroups[0].numbers.value;
    assert typed == [Num(0.0), Num(250.0)];
    editor.RemoveNumberField(0, 0);
    assert typed[..0] + typed[1..] == [Num(250.0)];
    assert editor.mealGroups[1].numbers == Some([Num(0.0)]);
    editor.RemoveNumberField(1, 0);
    assert [Num(0.0)][..0] + [Num(0.0)][1..] == [];
    total := editor.totalSum;
    first := editor.mealGroups[0].numbers;
    second := editor.mealGroups[1].numbers;
    saved := editor.storage[StorageKey];
  }
}
