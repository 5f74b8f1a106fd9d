/**
 * The home page: how the selected category and location are written into the URL
 * query, how the query is resolved back against fetched data, which features the map
 * shows, and whether the page shows a loading notice, an error or the map.
 * Fetched data is an input; each effect body is one operation.
 */
module App {
  import opened Wrappers
  import opened Seqs
  import opened Entities
  import opened UrlQuery
  import opened Numbers
  import opened Contexts
  import Select

  const CategoryKey := "category"
  const LocationKey := "location"

  /** JavaScript truthiness of a query value: present and not the empty string. */
  predicate Truthy(param: Option<string>)
    ensures Truthy(param) <==> param != None && param != Some("")
  {
    param.Some? && param.value != ""
  }

  /**
   * The text `query.set` stores for a slug. The "all categories" entry has no slug,
   * and the string conversion of `undefined` is "undefined".
   */
  function SlugText(slug: Option<string>): (t: string)
    ensures slug.Some? ==> t == slug.value
    ensures slug.None? ==> t == "undefined"
  {
    slug.GetOr("undefined")
  }

  // ---------------------------------------------------------------------------
  // State to URL
  // ---------------------------------------------------------------------------

  /**
   * The query after the category sync: `category` holds the selected category's slug,
   * or is absent when none is selected; every other pair stays where it was.
   */
  function CategorySyncQuery(q: seq<Pair>, selected: Option<Category>): (r: seq<Pair>)
    ensures selected.Some? ==> Named(r, CategoryKey) == [Pair(CategoryKey, SlugText(selected.value.nameSlug))]
    ensures selected.Some? ==> GetValue(r, CategoryKey) == Some(SlugText(selected.value.nameSlug))
    ensures selected.None? ==> GetValue(r, CategoryKey) == None
    ensures DeleteAll(r, CategoryKey) == DeleteAll(q, CategoryKey)
    ensures Named(r, LocationKey) == Named(q, LocationKey)
  {
    if selected.Some? then
      var text := SlugText(selected.value.nameSlug);
      var r := SetValue(q, CategoryKey, text);
      GetValueOfNamed(r, [Pair(CategoryKey, text)], CategoryKey);
      SetKeepsOthers(q, CategoryKey, text, LocationKey);
      r
    else
      var r := DeleteAll(q, CategoryKey);
      DeleteAllNamed(q, CategoryKey);
      DeleteNoop(r, CategoryKey);
      DeleteKeepsOthers(q, CategoryKey, LocationKey);
      r
  }

  /**
   * The query after the location sync: `location` holds the selected feature's key in
   * decimal, or is absent when none is selected; every other pair stays where it was.
   */
  function LocationSyncQuery(q: seq<Pair>, selected: Option<Feature>): (r: seq<Pair>)
    ensures selected.Some? ==> Named(r, LocationKey) == [Pair(LocationKey, ShowInt(selected.value.pk))]
    ensures selected.Some? ==> GetValue(r, LocationKey) == Some(ShowInt(selected.value.pk))
    ensures selected.None? ==> GetValue(r, LocationKey) == None
    ensures DeleteAll(r, LocationKey) == DeleteAll(q, LocationKey)
    ensures Named(r, CategoryKey) == Named(q, CategoryKey)
  {
    if selected.Some? then
      var text := ShowInt(selected.value.pk);
      var r := SetValue(q, LocationKey, text);
      GetValueOfNamed(r, [Pair(LocationKey, text)], LocationKey);
      SetKeepsOthers(q, LocationKey, text, CategoryKey);
      r
    else
      var r := DeleteAll(q, LocationKey);
      DeleteAllNamed(q, LocationKey);
      DeleteNoop(r, LocationKey);
      DeleteKeepsOthers(q, LocationKey, CategoryKey);
      r
  }

  // ---------------------------------------------------------------------------
  // URL to state
  // ---------------------------------------------------------------------------

  function SlugIs(slug: string): Category -> bool { (c: Category) => c.nameSlug == Some(slug) }

  /** `location.properties.pk === Number(param)`; NaN (`None`) equals no key. */
  function PkIs(parsed: Option<int>): Feature -> bool { (f: Feature) => parsed == Some(f.pk) }

  /**
   * The category cell after resolving the `category` parameter. With a non-empty
   * parameter and the list loaded, it becomes the first category with that slug, or
   * `undefined` when there is none; otherwise it is left as it was.
   */
  function ResolvedCategory(param: Option<string>, data: Option<seq<Category>>, current: Option<Category>): (r: Option<Category>)
    ensures !(Truthy(param) && data.Some?) ==> r == current
    ensures Truthy(param) && data.Some? && r.Some? ==> r.value in data.value && r.value.nameSlug == param
    ensures Truthy(param) && data.Some? ==> (r.None? <==> forall c :: c in data.value ==> c.nameSlug != param)
  {
    if Truthy(param) && data.Some? then FirstMatch(data.value, SlugIs(param.value)) else current
  }

  /**
   * The location cell after resolving the `location` parameter. With a non-empty
   * parameter and the features loaded, it becomes the first feature whose key equals
   * the parsed parameter, or `undefined` when there is none; otherwise it is left as it was.
   */
  function ResolvedLocation(param: Option<string>, data: Option<FeatureCollection>, current: Option<Feature>): (r: Option<Feature>)
    requires Truthy(param) && data.Some? ==> data.value.features.Some?
    ensures !(Truthy(param) && data.Some?) ==> r == current
    ensures Truthy(param) && data.Some? && r.Some? ==>
      r.value in data.value.features.value && ParseNumber(param.value) == Some(r.value.pk)
    ensures Truthy(param) && data.Some? ==>
      (r.None? <==> forall f :: f in data.value.features.value ==> ParseNumber(param.value) != Some(f.pk))
  {
    if Truthy(param) && data.Some? then FirstMatch(data.value.features.value, PkIs(ParseNumber(param.value)))
    else current
  }

  /** Resolution picks the category at the first index whose slug equals the parameter. */
  lemma ResolvedCategoryIsFirst(param: string, data: seq<Category>, i: int, current: Option<Category>)
    requires param != "" && 0 <= i < |data| && data[i].nameSlug == Some(param)
    requires forall j :: 0 <= j < i ==> data[j].nameSlug != Some(param)
    ensures ResolvedCategory(Some(param), Some(data), current) == Some(data[i])
  {
    FirstMatchAt(data, SlugIs(param), i);
  }

  /** Resolution picks the feature at the first index whose key equals the parsed parameter. */
  lemma ResolvedLocationIsFirst(param: string, features: seq<Feature>, i: int, current: Option<Feature>)
    requires param != "" && 0 <= i < |features| && ParseNumber(param) == Some(features[i].pk)
    requires forall j :: 0 <= j < i ==> ParseNumber(param) != Some(features[j].pk)
    ensures ResolvedLocation(Some(param), Some(FeatureCollection(Some(features))), current) == Some(features[i])
  {
    FirstMatchAt(features, PkIs(ParseNumber(param)), i);
  }

  /**
   * Writing a selected category into the query and resolving the query against the same
   * list gives back the first category with that slug: the selected one itself when no
   * earlier category shares its slug.
   */
  lemma CategoryRoundTrip(q: seq<Pair>, data: seq<Category>, i: int, current: Option<Category>)
    requires 0 <= i < |data| && data[i].nameSlug.Some? && data[i].nameSlug.value != ""
    requires forall j :: 0 <= j < i ==> data[j].nameSlug != data[i].nameSlug
    ensures ResolvedCategory(GetValue(CategorySyncQuery(q, Some(data[i])), CategoryKey), Some(data), current) == Some(data[i])
  {
    FirstMatchAt(data, SlugIs(data[i].nameSlug.value), i);
  }

  /**
   * Writing a selected feature's key into the query and resolving the query against the
   * same features gives back the first feature with that key: the selected one itself
   * when no earlier feature shares its key.
   */
  lemma LocationRoundTrip(q: seq<Pair>, features: seq<Feature>, i: int, current: Option<Feature>)
    requires 0 <= i < |features|
    requires forall j :: 0 <= j < i ==> features[j].pk != features[i].pk
    ensures ResolvedLocation(GetValue(LocationSyncQuery(q, Some(features[i])), LocationKey),
                             Some(FeatureCollection(Some(features))), current) == Some(features[i])
  {
    ParseShowInt(features[i].pk);
    FirstMatchAt(features, PkIs(Some(features[i].pk)), i);
  }

  /**
   * Once a `category` parameter that matches some fetched category has been resolved,
   * writing the resolved category back leaves a query that held the parameter once
   * unchanged: no redundant rewrite.
   */
  lemma CategoryResyncKeepsQuery(q: seq<Pair>, slug: string, data: seq<Category>, c: Category, current: Option<Category>)
    requires Named(q, CategoryKey) == [Pair(CategoryKey, slug)] && slug != ""
    requires c in data && c.nameSlug == Some(slug)
    ensures CategorySyncQuery(q, ResolvedCategory(Some(slug), Some(data), current)) == q
  {
    SetNoop(q, CategoryKey, slug);
  }

  /**
   * Likewise for `location`, when the parameter is the decimal form of a fetched
   * feature's key (a form such as "042" is rewritten to "42").
   */
  lemma LocationResyncKeepsQuery(q: seq<Pair>, features: seq<Feature>, f: Feature, current: Option<Feature>)
    requires Named(q, LocationKey) == [Pair(LocationKey, ShowInt(f.pk))]
    requires f in features
    ensures LocationSyncQuery(q, ResolvedLocation(Some(ShowInt(f.pk)), Some(FeatureCollection(Some(features))), current)) == q
  {
    ParseShowInt(f.pk);
    SetNoop(q, LocationKey, ShowInt(f.pk));
  }

  /**
   * On the first pass no category is selected yet, so the category sync deletes a
   * `category` parameter that the page was opened with; the parameter that resolution
   * reads afterwards is then absent, and the category stays unselected whatever data
   * arrives.
   */
  lemma MountSyncDropsCategoryParam(q: seq<Pair>, data: Option<seq<Category>>)
    ensures ResolvedCategory(GetValue(CategorySyncQuery(q, None), CategoryKey), data, None) == None
  {
  }

  /**
   * Choosing "all categories" in the picker makes the category non-null: the map keeps
   * every feature, the query records the slug "undefined", and resolving that parameter
   * against fetched categories (none of which has that slug) clears the category again.
   */
  lemma AllCategoriesSelection(q: seq<Pair>, features: Option<seq<Feature>>, data: seq<Category>, current: Option<Category>)
    requires forall c :: c in data ==> c.nameSlug != Some("undefined")
    ensures VisibleFeatures(features, Some(Select.AllCategories)) == features
    ensures GetValue(CategorySyncQuery(q, Some(Select.AllCategories)), CategoryKey) == Some("undefined")
    ensures ResolvedCategory(Some("undefined"), Some(data), current) == None
  {
  }

  // ---------------------------------------------------------------------------
  // Visible features
  // ---------------------------------------------------------------------------

  /** No filter applies when no category is selected or "all categories" is. */
  predicate ShowsAll(category: Option<Category>) {
    category.None? || category.value.pk == 0
  }

  function InCategory(pk: int): Feature -> bool {
    (f: Feature) => f.category.Some? && f.category.value.pk == pk
  }

  /**
   * The features the map shows for the selected category: all of them when no filter
   * applies, otherwise exactly those of that category, in their original order. The
   * filter reads every feature's category, so each must have one.
   */
  function VisibleFeatures(features: Option<seq<Feature>>, category: Option<Category>): (r: Option<seq<Feature>>)
    requires !ShowsAll(category) ==> features.Some? && forall f :: f in features.value ==> f.category.Some?
    ensures ShowsAll(category) ==> r == features
    ensures !ShowsAll(category) ==> r.Some?
    ensures !ShowsAll(category) ==>
              forall f :: f in r.value <==> f in features.value && f.category.value.pk == category.value.pk
  {
    if ShowsAll(category) then features
    else Some(Filter(features.value, InCategory(category.value.pk)))
  }

  /** Category filtering keeps order: filtering two runs of features and joining them is filtering the joined run. */
  lemma VisibleFeaturesInOrder(a: seq<Feature>, b: seq<Feature>, category: Option<Category>)
    requires !ShowsAll(category) ==> forall f :: f in a ==> f.category.Some?
    requires !ShowsAll(category) ==> forall f :: f in b ==> f.category.Some?
    ensures VisibleFeatures(Some(a + b), category).value ==
            VisibleFeatures(Some(a), category).value + VisibleFeatures(Some(b), category).value
  {
    if !ShowsAll(category) {
      FilterConcat(a, b, InCategory(category.value.pk));
    }
  }

  predicate Geocoded(f: Feature) { f.geometry.Some? }

  /**
   * The data handed to the map's pin layer: the collection with only its geocoded
   * features, or an empty object when the collection has no `features` member.
   */
  function PinData(locations: FeatureCollection): (r: FeatureCollection)
    ensures locations.features.None? ==> r.features.None?
    ensures locations.features.Some? ==> r.features.Some?
    ensures locations.features.Some? ==>
              forall f :: f in r.features.value <==> f in locations.features.value && f.geometry.Some?
  {
    match locations.features
    case None => FeatureCollection(None)
    case Some(features) => FeatureCollection(Some(Filter(features, Geocoded)))
  }

  /** Pin data keeps order, and keeps every feature when all are geocoded. */
  lemma PinDataInOrder(a: seq<Feature>, b: seq<Feature>)
    ensures PinData(FeatureCollection(Some(a + b))).features.value ==
            PinData(FeatureCollection(Some(a))).features.value + PinData(FeatureCollection(Some(b))).features.value
    ensures (forall f :: f in a ==> f.geometry.Some?) ==> PinData(FeatureCollection(Some(a))).features.value == a
  {
    FilterConcat(a, b, Geocoded);
    if forall f :: f in a ==> f.geometry.Some? {
      FilterKeepsAll(a, Geocoded);
    }
  }

  // ---------------------------------------------------------------------------
  // Page state
  // ---------------------------------------------------------------------------

  datatype FetchError = FetchError(message: string)

  /** What a fetch hook reports besides its data. */
  datatype FetchState = FetchState(isLoading: bool, error: Option<FetchError>)

  /** What the page shows: a loading notice, an error text (possibly `undefined`), or the map. */
  datatype Page = Loading | Failed(text: Option<string>) | Ready

  /**
   * Loading wins over any error; an error shows the location error's message when that
   * message is non-empty, otherwise the category error's message if there is one.
   */
  function PageFor(location: FetchState, category: FetchState): (r: Page)
    ensures r.Loading? <==> location.isLoading || category.isLoading
    ensures r.Failed? <==> !location.isLoading && !category.isLoading && (location.error.Some? || category.error.Some?)
    ensures r.Ready? <==> !location.isLoading && !category.isLoading && location.error.None? && category.error.None?
    ensures r.Failed? && location.error.Some? && location.error.value.message != "" ==>
      r.text == Some(location.error.value.message)
    ensures r.Failed? && !(location.error.Some? && location.error.value.message != "") ==>
      r.text == (if category.error.Some? then Some(category.error.value.message) else None)
  {
    if location.isLoading || category.isLoading then Loading
    else if location.error.Some? || category.error.Some? then
      Failed(if location.error.Some? && location.error.value.message != "" then Some(location.error.value.message)
             else if category.error.Some? then Some(category.error.value.message)
             else None)
    else Ready
  }

  // ---------------------------------------------------------------------------
  // The effects of the page, over its cells and its query object
  // ---------------------------------------------------------------------------

  /** Closing the detail panel, by the close icon or by dismissing the dialog, clears the location. */
  method CloseDetail(location: Cell<Feature>)
    modifies location
    ensures location.value == None
  {
    location.Set(None);
  }

  /**
   * The home page's view of the shared cells, its query object and the queries it has
   * published to the browser history.
   */
  class Home {
    const category: Cell<Category>
    const location: Cell<Feature>
    const query: SearchParams
    var published: seq<seq<Pair>>

    constructor (category: Cell<Category>, location: Cell<Feature>, query: SearchParams)
      ensures this.category == category && this.location == location && this.query == query
      ensures published == []
    {
      this.category := category;
      this.location := location;
      this.query := query;
      published := [];
    }

    /**
     * Category sync: set `category` to the selected slug or delete it, then publish the
     * query. The `else if` guard is true whenever it is reached, so an empty category
     * always deletes the key.
     */
    method SyncCategory(queryCategorySlug: Option<string>)
      modifies query, this
      ensures query.pairs == CategorySyncQuery(old(query.pairs), category.value)
      ensures published == old(published) + [query.pairs]
    {
      if category.value.Some? {
        query.Set(CategoryKey, SlugText(category.value.value.nameSlug));
      } else if category.value.None? || !Truthy(queryCategorySlug) {
        query.Delete(CategoryKey);
      }
      published := published + [query.pairs];
    }

    /**
     * Location sync: set `location` to the selected feature's key or delete it, then
     * publish the query. As above, the `else if` guard always holds when reached.
     */
    method SyncLocation(queryLocationPk: Option<string>)
      modifies query, this
      ensures query.pairs == LocationSyncQuery(old(query.pairs), location.value)
      ensures published == old(published) + [query.pairs]
    {
      if location.value.Some? {
        query.Set(LocationKey, ShowInt(location.value.value.pk));
      } else if location.value.None? || !Truthy(queryLocationPk) {
        query.Delete(LocationKey);
      }
      published := published + [query.pairs];
    }

    /** Resolve the `category` parameter read at render time against the fetched categories. */
    method ResolveCategory(queryCategorySlug: Option<string>, categoryData: Option<seq<Category>>)
      modifies category
      ensures category.value == ResolvedCategory(queryCategorySlug, categoryData, old(category.value))
    {
      if Truthy(queryCategorySlug) && categoryData.Some? {
        category.Set(FirstMatch(categoryData.value, SlugIs(queryCategorySlug.value)));
      }
    }

    /** Resolve the `location` parameter read at render time against the fetched features. */
    method ResolveLocation(queryLocationPk: Option<string>, locationData: Option<FeatureCollection>)
      requires Truthy(queryLocationPk) && locationData.Some? ==> locationData.value.features.Some?
      modifies location
      ensures location.value == ResolvedLocation(queryLocationPk, locationData, old(location.value))
    {
      if Truthy(queryLocationPk) && locationData.Some? {
        var parsed := ParseNumber(queryLocationPk.value);
        location.Set(FirstMatch(locationData.value.features.value, PkIs(parsed)));
      }
    }
  }
}
