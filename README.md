# Selection state and URL query of the diaspora map

This project models the client-side core of the Berlin diaspora map's home page:
the two shared selection cells (the selected category and the selected location),
how each effect of the page writes one of them into the URL query or resolves the
query back against fetched data, which features the map shows for the selected
category, whether the page shows a loading notice, an error or the map, the
category picker with its "all categories" entry, and the pin colour table.

Fetched data (the category list and the location feature collection) is an input.
Each React effect body is one operation; the order in which React runs them is not
modelled. The URL query is a list of name-value pairs with `get`, `set` and `delete`
as the URLSearchParams class defines them (section 6.2 of the WHATWG URL Standard);
publishing it with `history.push` appends the pairs to a log of published queries.

Modules, one per source file or concern:

- `Wrappers`: `Option`, where `None` stands for both `null` and `undefined`.
- `Seqs`: order-preserving `Filter` and `FirstMatch`, the model of JavaScript's
  `array.filter(p)[0]`.
- `UrlQuery`: the pair list, `GetValue`, `SetValue`, `DeleteAll`, and the class
  `SearchParams` that the page mutates in place.
- `Numbers`: `String(pk)` as `ShowInt` and `Number(param)` as `ParseNumber`.
- `Entities`: `Category`, `Feature`, `FeatureCollection`.
- `Constants` (`frontend/src/constants.js`): the colour table and the endpoints.
- `Contexts` (`frontend/src/contexts.js`): the state cells and their guarded accessors.
- `Select` (`frontend/src/Select.js`): the picker.
- `App` (`frontend/src/App.js`): the sync and resolution effects, the filters and
  the page decision.

Behaviour of this revision that the model reproduces as written:

- There is no first-render guard. On the first pass the category is still null, so
  the category sync deletes a `category` parameter the page was opened with, before
  the category list has arrived. The resolution that runs afterwards then finds no
  parameter (`App.MountSyncDropsCategoryParam`). The same holds for `location`.
- A resolution miss does not leave the cell as it was. The cell becomes `undefined`,
  which clears an earlier selection (`App.ResolvedCategory`, `App.ResolvedLocation`).
- Slugs are not unique in the backend's model. Resolution picks the first category
  with the slug (`App.CategoryRoundTrip`).
- Choosing "all categories" writes `category=undefined` into the query. The entry has
  no slug, and `set` converts `undefined` to the string "undefined"
  (`App.AllCategoriesSelection`).
- The search phrase, its debounce, and the location-proposal form are not part of
  this revision of the page. They are not modelled.

## Model

| member | source | states |
|---|---|---|
| `Seqs.Filter` | frontend/src/App.js:331-333 | `filter` keeps exactly the elements that satisfy the predicate, and never more than the input holds |
| `Seqs.First` | frontend/src/App.js:115 | `[0]` of an array is its first element, and `undefined` exactly when the array is empty |
| `Seqs.FirstMatch` | frontend/src/App.js:113-115 | `filter(p)[0]` is an element of the input that satisfies `p`; it is `undefined` exactly when no element does |
| `Seqs.FirstMatchAt` | frontend/src/App.js:122-124 | `filter(p)[0]` is the element at the first index where `p` holds |
| `Seqs.FilterConcat` | frontend/src/App.js:195 | filtering keeps the original order: filtering a concatenation is concatenating the filtered parts |
| `Seqs.FilterKeepsAll` | frontend/src/App.js:195 | when every element satisfies the predicate, filtering returns the input unchanged |
| `UrlQuery.Named` | frontend/src/App.js:75-76 | the pairs with a given name are exactly the query's pairs with that name |
| `UrlQuery.GetValue` | frontend/src/App.js:75-76 | `get` returns a value that some pair with that name carries, and null exactly when no pair has the name |
| `UrlQuery.GetValueAt` | frontend/src/App.js:75-76 | `get` returns the value of the first pair with the name |
| `UrlQuery.DeleteAll` | frontend/src/App.js:95 | `delete` keeps exactly the pairs whose name differs |
| `UrlQuery.DeleteKeepsOthers` | frontend/src/App.js:103 | `delete` leaves the pairs of every other name as they were, in order |
| `UrlQuery.DeleteNoop` | frontend/src/App.js:95 | `delete` changes nothing when no pair has the name |
| `UrlQuery.SetValue` | frontend/src/App.js:93 | after `set`, exactly one pair has the name and it carries the new value; removing that name gives the same list as before |
| `UrlQuery.SetKeepsOthers` | frontend/src/App.js:101 | `set` leaves the pairs and the `get` result of every other name unchanged |
| `UrlQuery.SetAppends` | frontend/src/App.js:93 | when the name is absent, `set` appends one pair at the end |
| `UrlQuery.SetInPlace` | frontend/src/App.js:101 | when the name is present, `set` keeps every earlier pair, replaces the first pair with the name in place, and drops the later ones |
| `UrlQuery.SetNoop` | frontend/src/App.js:93 | `set` changes nothing when the only pair with the name already has the value |
| `UrlQuery.SetIdempotent` | frontend/src/App.js:93 | setting the same value twice gives the same query as setting it once |
| `UrlQuery.SearchParams.Set` | frontend/src/App.js:93 | the in-place `set` replaces the pair list with the `set` result; `get` then returns the new value |
| `UrlQuery.SearchParams.Delete` | frontend/src/App.js:95 | the in-place `delete` replaces the pair list with the `delete` result; `get` then returns null |
| `Numbers.ShowInt` | frontend/src/App.js:101 | `String(pk)` is non-empty and starts with a minus sign exactly for negative keys |
| `Numbers.ShowNat` | frontend/src/App.js:101 | the decimal form of a natural number is digits only, with no leading zero |
| `Numbers.DigitsValueOfShowNat` | frontend/src/App.js:123 | reading back the decimal digits of a natural number gives that number |
| `Numbers.ParseNumber` | frontend/src/App.js:123 | `Number(param)` yields a number only for a string that is empty or starts with a sign or a digit |
| `Numbers.ParseShowInt` | frontend/src/App.js:123 | `Number(String(pk)) === pk` for every integer key |
| `Numbers.ShowIntInjective` | frontend/src/App.js:101 | distinct keys are written as distinct query values |
| `Constants.BuildColorMap` | frontend/src/constants.js:18-22 | the loop builds a table whose keys are exactly 1 to 14, where key k holds the k-th colour |
| `Constants.ColorTableKeys` | frontend/src/constants.js:18-22 | a key has a colour exactly when it lies in 1..14 (the picker's 0 and larger keys have none), and key k has `distinctColors[k-1]` |
| `Constants.ColorsDistinct` | frontend/src/constants.js:1-16 | the fourteen colours are pairwise distinct |
| `Constants.ColorTableInjective` | frontend/src/constants.js:20-22 | distinct keys get distinct colours |
| `Constants.Endpoints` | frontend/src/constants.js:27-30 | both endpoints start with the base address, continue with `/api/locations/` and `/api/categories/`, and differ |
| `Contexts.Cell.constructor` | frontend/src/contexts.js:16 | a provider's cell starts as null |
| `Contexts.Cell.Set` | frontend/src/contexts.js:34 | a setter replaces the cell's value wholesale |
| `Contexts.UseLocation` | frontend/src/contexts.js:7-13 | the accessor returns the provider's cell, and throws "useLocation must be used within a LocationProvider" exactly when there is no provider |
| `Contexts.UseCategory` | frontend/src/contexts.js:25-31 | the accessor returns the provider's cell, and throws "useCategory must be used within a CategoryProvider" exactly when there is no provider |
| `Contexts.Providers.constructor` | frontend/src/App.js:42-46 | the page mounts two fresh, separate cells, both null |
| `Contexts.Providers.SetLocation` | frontend/src/contexts.js:15-19 | setting the location never changes the category cell |
| `Contexts.Providers.SetCategory` | frontend/src/contexts.js:33-37 | setting the category never changes the location cell |
| `Select.Options` | frontend/src/Select.js:10 | the entries are the "all categories" entry (key 0) followed by the fetched categories in order, one more than the data |
| `Select.InitialSelection` | frontend/src/Select.js:12 | the picker first shows the shared category if set, otherwise the "all categories" entry |
| `Select.IconFor` | frontend/src/Select.js:28-36 | an entry shows a marker exactly when its key is not 0; the marker has the key's colour, and no colour for a key outside 1..14 |
| `Select.OptionIcons` | frontend/src/Select.js:64-75 | when all fetched keys are positive, only the first entry shows the map icon |
| `Select.Picker.constructor` | frontend/src/Select.js:10-12 | a mounted picker holds the entry list and the initial selection |
| `Select.Picker.OnChange` | frontend/src/Select.js:14-17 | choosing an entry sets both the shared category and the local selection to it, including the "all categories" entry |
| `Select.Picker.FollowCategory` | frontend/src/Select.js:13 | the local selection follows a non-null shared category, and stays as it was when the shared category is null |
| `App.Truthy` | frontend/src/App.js:111 | a query value passes the truthiness tests (also at lines 94, 102 and 120) exactly when it is neither null nor the empty string |
| `App.SlugText` | frontend/src/App.js:93 | `set` stores a category's slug as it is, and the string "undefined" for the "all categories" entry, which has no slug |
| `App.Home.constructor` | frontend/src/App.js:69-76 | the page starts with the two shared cells, its query object and nothing published yet |
| `App.CategorySyncQuery` | frontend/src/App.js:91-97 | after category sync, the query holds `category` once with the selected slug, or no `category` pair when none is selected; all other pairs, including `location`, are kept |
| `App.LocationSyncQuery` | frontend/src/App.js:99-104 | after location sync, the query holds `location` once with the selected key in decimal, or no `location` pair; all other pairs, including `category`, are kept |
| `App.Home.SyncCategory` | frontend/src/App.js:91-98 | the effect leaves the category sync result in the query and publishes it; its `else if` guard holds whenever it is reached |
| `App.Home.SyncLocation` | frontend/src/App.js:99-106 | the effect leaves the location sync result in the query and publishes it; its `else if` guard holds whenever it is reached |
| `App.ResolvedCategory` | frontend/src/App.js:110-118 | with a non-empty parameter and the list loaded, the category becomes a listed category with that slug, or undefined exactly when none has it; otherwise it is unchanged |
| `App.ResolvedLocation` | frontend/src/App.js:119-127 | with a non-empty parameter and the features loaded, the location becomes a listed feature whose key equals `Number(param)`, or undefined exactly when none does; otherwise it is unchanged |
| `App.Home.ResolveCategory` | frontend/src/App.js:110-118 | the effect sets the category cell to the resolved category and changes nothing else |
| `App.Home.ResolveLocation` | frontend/src/App.js:119-127 | the effect sets the location cell to the resolved feature and changes nothing else |
| `App.ResolvedCategoryIsFirst` | frontend/src/App.js:112-116 | a non-empty `category` parameter resolves, once the list is loaded, to the category at the first index with that slug |
| `App.ResolvedLocationIsFirst` | frontend/src/App.js:121-125 | a non-empty `location` parameter resolves, once the features are loaded, to the feature at the first index whose key equals `Number(param)` |
| `App.CategoryRoundTrip` | frontend/src/App.js:93-115 | writing a selected category's slug and resolving it against the same list gives that category back, when it is the first with its slug |
| `App.LocationRoundTrip` | frontend/src/App.js:101-124 | writing a selected feature's key and resolving it against the same features gives that feature back, when it is the first with its key |
| `App.CategoryResyncKeepsQuery` | frontend/src/App.js:91-118 | writing back a resolved category leaves a query that held its slug once unchanged |
| `App.LocationResyncKeepsQuery` | frontend/src/App.js:99-127 | writing back a resolved feature leaves a query that held its key once, in decimal, unchanged |
| `App.MountSyncDropsCategoryParam` | frontend/src/App.js:91-118 | with no category selected, the sync removes the `category` parameter, so resolution afterwards selects nothing |
| `App.AllCategoriesSelection` | frontend/src/App.js:93-115 | with "all categories" chosen, the map keeps every feature, the query holds `category=undefined`, and resolving that against fetched slugs clears the category |
| `App.VisibleFeatures` | frontend/src/App.js:326-335 | with no category or key 0, every feature is shown; otherwise exactly the features of the selected category |
| `App.VisibleFeaturesInOrder` | frontend/src/App.js:330-334 | the category filter keeps the original order |
| `App.PinData` | frontend/src/App.js:191-197 | pin data is an empty object when `features` is missing, otherwise exactly the features that have a geometry |
| `App.PinDataInOrder` | frontend/src/App.js:195 | pin data keeps the original order, and keeps every feature when all have a geometry |
| `App.PageFor` | frontend/src/App.js:129-136 | the page is loading when either fetch is, which beats any error; otherwise it fails when either fetch failed, showing the location error's message if non-empty, else the category error's message |
| `App.CloseDetail` | frontend/src/App.js:231-232 | closing the detail panel (dialog dismissal, and the close icon at line 269) clears the location |

## Left out

- Fetching and caching (`fetchCategories`, `fetchLocations`, the query client): fetched data and the loading/error flags are inputs.
- The order in which React runs effects and re-renders: each effect body is one operation, and values read at render time are parameters.
- The serialisation of the query (`toString`, percent-encoding): `history.push` logs the pair list itself.
- `useQueryParams` and `useSearchPhrase` are imported but not defined in the source; the query is taken as a given pair list, and the search phrase is not modelled.
- `Numbers.ParseNumber`: models `Number` only for an optional sign followed by decimal digits (and the empty string); whitespace, fractions, exponents and hexadecimal forms are read as NaN.
- `Numbers.ShowInt`: models `String` for integers below 10^21; larger numbers use exponent notation in JavaScript.
- The viewport fly-to in the map (floating-point arithmetic and map transitions), including its access to the geometry of a selected feature.
- Rendering: dialogs, transitions, the list box, marker SVGs and the text fields of a feature (name, address, e-mail, website, phone, description), which are only displayed.
- A pin click passes the whole feature array to its handler; it is not modelled as a selection.
- `App.VisibleFeatures`: requires, when a filter applies, a `features` array in which every feature has a category. The source throws a TypeError on a missing `features` member and on a feature with a null category there (frontend/src/App.js:331-332); the throw is not modelled. The backend's location list is a GeoJSON FeatureCollection, which always has `features`.
- `App.ResolvedLocation`: requires a loaded collection to have a `features` member whenever the parameter is non-empty. The source throws a TypeError on one without it (frontend/src/App.js:122); the throw is not modelled, for the same reason.
- `App.Home.ResolveLocation`: the same requirement and the same unmodelled throw as `App.ResolvedLocation`.
- `Constants.Endpoints`: the base address comes from the environment and is a string parameter; when the variable is unset JavaScript would write "undefined" in its place. The map-tile access token is configuration and is not modelled.
- The backend (Django views, serializers, models, admin hook, geocoding command, migrations) and the styling configuration.
