/**
 * The category picker: a list box over the fetched categories with an "all categories"
 * entry in front, whose local selection follows the shared category cell.
 */
module Select {
  import opened Wrappers
  import opened Entities
  import opened Contexts
  import opened Constants

  /** The entry the picker puts in front of the fetched categories. Its key 0 means "no filter". */
  const AllCategories := Category(0, None, None, "Toate Categoriile")

  /** The entries of the picker: the "all categories" entry, then the fetched categories in order. */
  function Options(data: seq<Category>): (r: seq<Category>)
    ensures |r| == |data| + 1
    ensures r[0] == AllCategories
    ensures forall i :: 0 <= i < |data| ==> r[i + 1] == data[i]
  {
    [AllCategories] + data
  }

  /** The entry shown when the picker mounts: the shared category, or else the first entry. */
  function InitialSelection(shared: Option<Category>, data: seq<Category>): (r: Category)
    ensures shared.Some? ==> r == shared.value
    ensures shared.None? ==> r == AllCategories
  {
    shared.GetOr(Options(data)[0])
  }

  /** The icon drawn beside an entry: a coloured marker, or the map icon for "all categories". */
  datatype Icon = MarkerIcon(color: Option<string>) | MapIcon

  function IconFor(item: Category): (r: Icon)
    ensures r.MarkerIcon? <==> item.pk != 0
    ensures r.MarkerIcon? ==> (r.color.Some? <==> 1 <= item.pk <= |DistinctColors|)
    ensures r.MarkerIcon? && r.color.Some? ==> r.color.value == DistinctColors[item.pk - 1]
  {
    ColorTableKeys(item.pk);
    if item.pk != 0 then
      MarkerIcon(if item.pk in ColorTable() then Some(ColorTable()[item.pk]) else None)
    else MapIcon
  }

  /** When every fetched key is positive, only the first entry shows the map icon. */
  lemma OptionIcons(data: seq<Category>, i: int)
    requires forall c :: c in data ==> c.pk > 0
    requires 0 <= i < |data| + 1
    ensures IconFor(Options(data)[i]).MapIcon? <==> i == 0
  {
    if i > 0 {
      assert Options(data)[i] == data[i - 1];
      assert data[i - 1] in data;
    }
  }

  /** A mounted picker: its entries, its local selection and the shared category cell. */
  class Picker {
    const shared: Cell<Category>
    const options: seq<Category>
    var selected: Category

    constructor (data: seq<Category>, shared: Cell<Category>)
      ensures this.shared == shared && options == Options(data)
      ensures selected == InitialSelection(shared.value, data)
    {
      this.shared := shared;
      options := Options(data);
      selected := InitialSelection(shared.value, data);
    }

    /**
     * Choosing an entry sets both the shared category and the local selection to it;
     * choosing "all categories" makes the shared category non-null.
     */
    method OnChange(item: Category)
      modifies this, shared
      ensures shared.value == Some(item)
      ensures selected == item
    {
      shared.Set(Some(item));
      selected := item;
    }

    /**
     * The selection follows the shared category when that is set; when the shared
     * category is cleared, the previous selection stays on display.
     */
    method FollowCategory()
      modifies this
      ensures shared.value.Some? ==> selected == shared.value.value
      ensures shared.value.None? ==> selected == old(selected)
    {
      if shared.value.Some? {
        selected := shared.value.value;
      }
    }
  }
}
