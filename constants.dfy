/**
 * Page-wide constants: the colour of each category's pins and the backend endpoints.
 */
module Constants {

  /** Fourteen pin colours, one per category key from 1 to 14. */
  const DistinctColors: seq<string> := [
    "#a6cee3", "#1f78b4", "#b2df8a", "#33a02c", "#fb9a99", "#e31a1c", "#fdbf6f",
    "#ff7f00", "#cab2d6", "#6a3d9a", "#ffff99", "#b15928", "#000000", "#ff00d7"
  ]

  /** The `k`-th colour, counting from 1. */
  function NthColor(k: int): string
    requires 1 <= k <= |DistinctColors|
  {
    DistinctColors[k - 1]
  }

  /** The colour table as a value: key `k` has the `k`-th colour. */
  function ColorTable(): map<int, string> {
    map k | 1 <= k <= |DistinctColors| :: NthColor(k)
  }

  /**
   * Builds the colour table the way the page does: one entry per colour, written
   * under the colour's position plus one.
   */
  method BuildColorMap() returns (m: map<int, string>)
    ensures forall k :: k in m <==> 1 <= k <= 14
    ensures forall k :: k in m ==> m[k] == DistinctColors[k - 1]
    ensures m == ColorTable()
  {
    m := map[];
    for index := 0 to |DistinctColors|
      invariant forall k :: k in m <==> 1 <= k <= index
      invariant forall k :: k in m ==> m[k] == DistinctColors[k - 1]
    {
      m := m[index + 1 := DistinctColors[index]];
    }
    forall k ensures (k in m <==> k in ColorTable()) && (k in m ==> m[k] == ColorTable()[k]) {
      ColorTableKeys(k);
    }
  }

  /** The keys of the table are exactly 1 to 14: the picker's 0 and any larger key have no colour. */
  lemma ColorTableKeys(pk: int)
    ensures pk in ColorTable() <==> 1 <= pk <= 14
    ensures pk in ColorTable() ==> ColorTable()[pk] == DistinctColors[pk - 1]
  {
    if 1 <= pk <= 14 {
      assert NthColor(pk) == DistinctColors[pk - 1];
    }
  }

  /** No colour appears twice in the list. */
  lemma ColorsDistinct(i: int, j: int)
    requires 0 <= i < j < |DistinctColors|
    ensures DistinctColors[i] != DistinctColors[j]
  {
  }

  /** Distinct categories get distinct colours. */
  lemma ColorTableInjective(a: int, b: int)
    requires a in ColorTable() && b in ColorTable() && a != b
    ensures ColorTable()[a] != ColorTable()[b]
  {
    if a < b { ColorsDistinct(a - 1, b - 1); } else { ColorsDistinct(b - 1, a - 1); }
  }

  /** The backend's two read endpoints below a configured base address. */
  datatype EndpointTable = EndpointTable(locations: string, categories: string)

  /** The endpoints: the base address followed by the locations and the categories paths. */
  function Endpoints(apiUrl: string): (r: EndpointTable)
    ensures |r.locations| > |apiUrl| && |r.categories| > |apiUrl|
    ensures r.locations[..|apiUrl|] == apiUrl && r.locations[|apiUrl|..] == "/api/locations/"
    ensures r.categories[..|apiUrl|] == apiUrl && r.categories[|apiUrl|..] == "/api/categories/"
    ensures r.locations != r.categories
  {
    var r := EndpointTable(apiUrl + "/api/locations/", apiUrl + "/api/categories/");
    assert r.locations[|apiUrl| + 5] == 'l' && r.categories[|apiUrl| + 5] == 'c';
    r
  }
}
