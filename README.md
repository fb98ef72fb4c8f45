# Meal-group editor of vozo-calc, modelled in Dafny

vozo-calc is a single-page calorie tracker. Its `App` component holds a
list of meal groups. Each group has a display name and a list of entries.
An entry is a number or the blank marker `''`. The user can overwrite an
entry, append a blank entry, or delete an entry. After every change an
effect recomputes the displayed total and writes the list to the browser's
storage under the key `mealGroups`. When nothing is stored, the component
starts from a four-group template.

The model has three modules:

- `MealGroups` (`MealGroups.dfy`): the `Entry` and `MealGroup` data, the
  default template, JavaScript's unary plus on an entry (`Value`), and the
  rule `parseFloat(value) || ''` that decides which entry a parsed input
  becomes (`StoredEntry`).
- `Aggregation` (`Aggregation.dfy`): the nested `reduce` of the effect, as
  the two left folds it is (`FoldEntries`, `GroupSum`, `TotalFrom`, `Total`).
  Beside it is a reference definition of "the sum of every numeric entry"
  and the lemmas that connect the two. Further lemmas say how the total
  moves under each edit and that it does not depend on order.
- `Editor` (`Editor.dfy`): the class `MealGroupEditor`. Its fields are the
  `mealGroups` state, the `totalSum` state and the storage, a map from key
  to stored list. There is one method per handler. Each method runs the
  handler and then the effect as one step. `Valid()` is the invariant the
  effect re-establishes: the total is the total of the list, and the
  stored list is the current list. `WithoutIndex` is the index `filter` of
  `removeNumberField`.

Numbers are Dafny `real`s, so addition is exact. A parsed input is an
`Option<real>`; `None` stands for the NaN of a failed parse.

Three points of the code's behaviour are easy to misread, and the model follows the code in each:

- The default template holds the number `0` in each group, not a blank
  entry (src/App.tsx:15-18).
- Typing an input that parses to 0 stores the blank marker, not the number
  0, because `0 || ''` is `''` (src/App.tsx:39).
- This component keeps a single list under the fixed key `mealGroups`. It
  does not keep one record per date.

## Model

| member | source | states |
|---|---|---|
| `MealGroups.DefaultGroups` | src/App.tsx:14-19 | The template has exactly four groups with distinct names. Each group's list is the single number 0. |
| `MealGroups.StoredEntry` | src/App.tsx:39 | The stored entry is blank exactly when the parse failed or gave 0. Otherwise it is the parsed number, which is never 0. Its value in the total is the parsed number, or 0 on failure. |
| `MealGroups.Value` | src/App.tsx:27-29 | JavaScript's unary plus on an entry: `+''` is 0 and `+n` is n, never NaN. Its meaning in the total is given by `FoldEntriesIsSum` and `StoredEntry`. |
| `Aggregation.FoldEntries` | src/App.tsx:27 | The left fold of the inner `reduce` over a group's entries, adding `Value` of each entry to the accumulator in order. Its meaning is given by `FoldEntriesIsSum`. |
| `Aggregation.GroupSum` | src/App.tsx:27 | `group.numbers?.reduce(..., 0)`: `None` (undefined) when the list is absent, else the inner fold from 0. Its meaning is given by `TotalFromIsSumAll`. |
| `Aggregation.TotalFrom` | src/App.tsx:25-32 | The left fold of the outer `reduce`, adding each defined group sum to the accumulator and skipping an undefined one. Its meaning is given by `TotalFromIsSumAll`. |
| `Aggregation.Total` | src/App.tsx:25-33 | The outer fold from 0, the value stored in `totalSum`. Its meaning is given by `TotalIsSumOfNumbers`. |
| `Aggregation.FoldEntriesIsSum` | src/App.tsx:27 | The inner reduce from any start value adds the sum of the entries' values to it. Blanks count 0. |
| `Aggregation.TotalFromIsSumAll` | src/App.tsx:25-32 | The outer reduce from any start value adds the contribution of every group to it. A group with no list contributes 0. |
| `Aggregation.TotalIsSumOfContributions` | src/App.tsx:25-32 | The total is the sum of the groups' contributions. |
| `Aggregation.TotalIsSumOfNumbers` | src/App.tsx:25-32 | The total equals the sum of the numeric entries of all groups, in group order, with blanks and absent lists dropped. |
| `Aggregation.TotalOfBlankGroups` | src/App.tsx:25-31 | The total is 0 when there are no groups, or every list is empty, absent or all blank, because both reduces start at 0. |
| `Aggregation.TotalSkipsAbsentGroup` | src/App.tsx:27-29 | Inserting a group without a list at any position leaves the total unchanged, since its `undefined` sum fails the NaN check. |
| `Aggregation.DefaultTotalIsZero` | src/App.tsx:14-19 | The default template's total is 0. |
| `Aggregation.TotalOfReorderedGroups` | src/App.tsx:25-32 | Two group lists that are permutations of each other have the same total. |
| `Aggregation.TotalOfReorderedEntries` | src/App.tsx:27 | Permuting the entries of one group leaves the total unchanged. |
| `Aggregation.TotalAfterSetEntry` | src/App.tsx:39 | Overwriting entry i of group g with e changes the total by `Value(e)` minus the old entry's value. |
| `Aggregation.TotalAfterAppendBlank` | src/App.tsx:45 | Appending a blank to a group leaves the total unchanged. |
| `Aggregation.TotalAfterRemoveEntry` | src/App.tsx:51-53 | Dropping entry i of a group lowers the total by that entry's value. |
| `Editor.WithoutIndexDropsPosition` | src/App.tsx:51-53 | The index filter yields the list with position i cut out, the rest in order, when i is a position. For any other i it yields the list unchanged. |
| `Editor.WithoutIndex` | src/App.tsx:51-53 | `filter((_, i) => i !== numberIndex)`: keeps each entry whose own position differs from the index, in order. Its meaning is given by `WithoutIndexDropsPosition`. |
| `Editor.RemovingOnlyEntryLeavesEmpty` | src/App.tsx:51-53 | Filtering out the only entry yields the empty list, not a blank. |
| `Editor.MealGroupEditor.Valid` | src/App.tsx:24-35 | The state the effect sets up again after every change: `totalSum` is `Total` of the list, and the storage holds the list under `mealGroups`. Every handler and the constructor ensure it. |
| `Editor.MealGroupEditor.constructor` | src/App.tsx:10-20 | The initial list is the stored list when the key is present, else the default template. After the first effect, the total is that list's total and the storage holds it under `mealGroups`. Other keys are untouched. |
| `Editor.MealGroupEditor.RunEffect` | src/App.tsx:24-35 | The effect recomputes the total from the list and writes the list under `mealGroups`. |
| `Editor.MealGroupEditor.SetMealGroups` | src/App.tsx:40 | Setting the state replaces the list and triggers the effect, so `Valid()` holds and the new list is stored. |
| `Editor.MealGroupEditor.HandleNumberChange` | src/App.tsx:37-41 | Only entry `numberIndex` of group `groupIndex` changes; it becomes `StoredEntry(parsed)`. Every other entry, every other group, the name and all lengths stay the same. The total moves by the difference of the two values, and the new list is stored. |
| `Editor.MealGroupEditor.AddNumberField` | src/App.tsx:43-47 | The group's list becomes the old one plus a trailing blank. Every other group and the name stay the same. The total is unchanged and the new list is stored. |
| `Editor.MealGroupEditor.RemoveNumberField` | src/App.tsx:49-55 | The group's list loses position `numberIndex` and keeps the rest in order. An index that is not a position leaves the list unchanged. The total drops by the removed value, and the new list is stored. |
| `Editor.FirstVisitSession` | src/App.tsx:10-55 | Starting from empty storage: add a field to the first group, type 250 into it, then delete the template's 0. The first group is `[250]`, the total is 250, the second group can be emptied, and four groups are stored. |

## Left out

- JSX rendering, CSS, button labels and the `key` props (src/App.tsx:57-87) are user-interface code.
- React's `useState`/`useEffect` scheduling: each handler followed by its effect is modelled as one sequential step.
- `localStorage` and `JSON.stringify`/`JSON.parse`: the storage is a map field that holds lists of groups. Parsing is taken as the inverse of serialising. Malformed stored text is not modelled.
- `parseFloat` on the input text: handlers receive the parse result as an `Option<real>`.
- IEEE floating point: no rounding, no infinities, no negative zero. The NaN checks in the reduces are modelled only where they can fail, which is a group with an absent list.
- `console.log` of each group sum (src/App.tsx:28) is output only.
- Out-of-range indices and groups without a list are excluded by the handlers' preconditions. The UI only creates handlers for existing groups and existing entries (src/App.tsx:60-79), so it never makes these calls. What JavaScript would do with them is not modelled:
  - an out-of-range `groupIndex` makes `updatedMealGroups[groupIndex]` undefined, so all three handlers throw a TypeError;
  - a group whose `numbers` is absent makes all three handlers throw a TypeError;
  - in `handleNumberChange`, `numberIndex` equal to the length appends the entry, a larger one leaves holes (a sparse array), and a negative or fractional one sets a property that is not an array element, without throwing.
- Mounting from a stored record in which some group lacks `numbers`: the first render calls `group.numbers.map` without `?.` (src/App.tsx:63) and throws before the effect at src/App.tsx:24-35 runs, so no total is ever computed or shown. The model's constructor accepts such a record and computes a total. The `None` case of `GroupSum`, `Total` and `TotalSkipsAbsentGroup` models the `?.` guard at src/App.tsx:27 exactly as written, but the running component never reaches that guard.
- Aliasing: `[...mealGroups]` copies only the outer array, so the handlers mutate group objects that the previous state shares. The model works on values. That sharing is not captured, and nothing reads the previous state afterwards.
- Date-keyed day records, the 7-day chart, day navigation and the settings drawer are not in src/App.tsx. Those parts of the application are not part of this model.
