/**
 * The two shared selection cells of the page: the selected location and the selected
 * category. Each provider owns one cell, which starts empty and is replaced wholesale by
 * its setter; each accessor fails when it is used outside its provider.
 */
module Contexts {
  import opened Wrappers
  import opened Entities

  /** A state cell; `None` stands for both `null` and `undefined`. */
  class Cell<T> {
    var value: Option<T>

    /** A provider mounts its cell with `null`. */
    constructor ()
      ensures value == None
    {
      value := None;
    }

    /** The setter replaces the value and touches nothing else. */
    method Set(v: Option<T>)
      modifies this
      ensures value == v
    {
      value := v;
    }
  }

  /** What an accessor hook gives back: the cell, or the error it throws. */
  datatype Hook<T> = Provided(cell: T) | Thrown(message: string)

  const LocationGuardMessage := "useLocation must be used within a LocationProvider"
  const CategoryGuardMessage := "useCategory must be used within a CategoryProvider"

  /** `useLocation`: the enclosing provider's cell, or the guard's error when there is none. */
  function UseLocation(context: Option<Cell<Feature>>): (r: Hook<Cell<Feature>>)
    ensures r.Thrown? <==> context.None?
    ensures r.Thrown? ==> r.message == LocationGuardMessage
    ensures r.Provided? ==> r.cell == context.value
  {
    match context
    case None => Thrown(LocationGuardMessage)
    case Some(cell) => Provided(cell)
  }

  /** `useCategory`: the enclosing provider's cell, or the guard's error when there is none. */
  function UseCategory(context: Option<Cell<Category>>): (r: Hook<Cell<Category>>)
    ensures r.Thrown? <==> context.None?
    ensures r.Thrown? ==> r.message == CategoryGuardMessage
    ensures r.Provided? ==> r.cell == context.value
  {
    match context
    case None => Thrown(CategoryGuardMessage)
    case Some(cell) => Provided(cell)
  }

  /** The providers of the page, mounted one inside the other, each with its own cell. */
  class Providers {
    const category: Cell<Category>
    const location: Cell<Feature>

    constructor ()
      ensures fresh(category) && fresh(location)
      ensures category.value == None && location.value == None
    {
      category := new Cell();
      location := new Cell();
    }

    /** Setting the location leaves the category cell as it was. */
    method SetLocation(v: Option<Feature>)
      modifies location
      ensures location.value == v
      ensures category.value == old(category.value)
    {
      location.Set(v);
    }

    /** Setting the category leaves the location cell as it was. */
    method SetCategory(v: Option<Category>)
      modifies category
      ensures category.value == v
      ensures location.value == old(location.value)
    {
      category.Set(v);
    }
  }
}
