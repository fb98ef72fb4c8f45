/** The data of the meal-group editor: one entry of a group is either a
    number or the blank marker `''`; a group has a display name and a list
    of entries that the total tolerates being absent. */
module MealGroups {

  datatype Option<+T> = None | Some(value: T)

  /** One input field of a group: the blank marker `''` or a number. */
  datatype Entry = Blank | Num(v: real)

  /** `numbers` is `None` when a stored record lacks the list altogether. */
  datatype MealGroup = MealGroup(name: string, numbers: Option<seq<Entry>>)

  /** JavaScript's unary plus on an entry: `+''` is 0, `+n` is n.  It is
      never NaN for the two kinds of entry. */
  function Value(e: Entry): real
  {
    match e
    case Blank => 0.0
    case Num(v) => v
  }

  /** The record used when nothing is stored: four named groups, each with
      the single numeric entry 0 (not a blank). */
  function DefaultGroups(): (gs: seq<MealGroup>)
    ensures |gs| == 4
    ensures forall k :: 0 <= k < |gs| ==> gs[k].numbers == Some([Num(0.0)])
    ensures forall j, k :: 0 <= j < k < |gs| ==> gs[j].name != gs[k].name
  {
    [ MealGroup("Reggeli", Some([Num(0.0)])),
      MealGroup("Ebéd", Some([Num(0.0)])),
      MealGroup("Uzsonna", Some([Num(0.0)])),
      MealGroup("Vacsora", Some([Num(0.0)])) ]
  }

  /** The entry written for an already-parsed input (`None` stands for the
      NaN of a failed parse): `parsed || ''` turns both NaN and 0 into the
      blank marker and keeps every other number. */
  function StoredEntry(parsed: Option<real>): (e: Entry)
    ensures e == Blank <==> (parsed == None || parsed == Some(0.0))
    ensures e.Num? ==> parsed == Some(e.v) && e.v != 0.0
    ensures Value(e) == (if parsed.Some? then parsed.value else 0.0)
  {
    match parsed
    case None => Blank
    case Some(x) => if x == 0.0 then Blank else Num(x)
  }
}
