/** The records the page receives from the backend's two read endpoints. */
module Entities {
  import opened Wrappers

  /**
   * A category of points of interest. Fetched categories always carry a slug and both
   * labels; the "all categories" entry of the picker has neither slug nor singular label.
   */
  datatype Category = Category(pk: int, nameSlug: Option<string>, labelSingular: Option<string>, labelPlural: string)

  datatype Point = Point(longitude: real, latitude: real)

  /**
   * A GeoJSON feature for one location: its key, its geometry (absent when the
   * address was never geocoded) and its category (absent when none was assigned).
   */
  datatype Feature = Feature(pk: int, geometry: Option<Point>, category: Option<Category>)

  /** A GeoJSON feature collection, whose `features` member may be missing. */
  datatype FeatureCollection = FeatureCollection(features: Option<seq<Feature>>)
}
