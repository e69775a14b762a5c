# Recipe controller model

This project models the recipe controller of a meal-planning backend
(`server/recipe/recipeController.js`). The controller turns a user's query
model into recipe-search URLs for the Yummly provider, requests them, and
collects the matches per course. It also stores newly seen recipes in a
local table. The model covers four parts.

- **Query building** (`writeQueries`). There is one shared fragment of
  allergy, cuisine and diet parameters, taken from the selected entries of
  the three selection maps and translated through the vocabulary tables.
  Each course gets one URL:
  - the search endpoint, credentials and the fragment;
  - the course tag and `requirePictures=true`;
  - `maxResult` (the requested count plus 10);
  - `start` (the offset).

  A course whose `n && n + 10` is falsy gets the empty string instead. The
  dinner URL reuses the breakfast course tag, as the code does. Module
  `QueryBuilder` holds the method `WriteQueries`. It builds the fragment
  with a loop (`AppendSelected`), as the source's `for … in` loops do, and
  is proved equal to the specification function `QueriesFor`. Modules
  `QueryString` and `Decimal` give the URL text and the decimal numbers a
  parser. That lets the model prove that a URL reads back as exactly the
  parameters it was built from.
- **Fetching** (`queryYummly`). An empty query resolves to `[]` without a
  request. Otherwise the provider's answer is abstracted as a function from
  URL to response: the response stream's error event, or a parsed body
  whose `matches` may be missing.
- **Aggregation** (`createRecipes`). Module `Aggregator` joins the three
  outcomes positionally into `breakfastRecipes`, `lunchRecipes` and
  `dinnerRecipes`. A response error on any issued query rejects the whole
  result.
  `results[i] || results[i].matches` keeps an array (`[]` included) and
  throws when `matches` was missing, so that case is a rejection.
- **Persistence** (`saveRecipe`). Module `RecipePersister` has a class
  `RecipeTable` over a map from recipe id to record. `SaveRecipe` looks the
  id up and inserts the projected record only when the id is absent. The
  projection keeps the first image URL of each list and the three
  attribute lists. It includes each flavour value only when `flavors` is
  present. When `attributes` is absent, reading `attributes.cuisine`
  throws, so nothing is inserted.

JavaScript semantics are written out:
- A missing vocabulary key or an unset number concatenates as `undefined`.
- A count is falsy when it is absent or 0. `n && n + 10` is therefore also
  falsy for `n = -10`, so that course is skipped too.
- Selection maps are sequences of `(key, selected)` pairs, which fixes the
  enumeration order.

Two consequences of the code as written:
- The comment at line 195 says an empty query resolves to an empty array.
  For a result that is undefined, the code reads `results[i].matches`,
  which throws, so a response without `matches` makes `createRecipes`
  reject.
- Nothing checks the sign of a count, so -10 gives `n + 10 == 0` and skips
  its course.

## Model

| member | source | states |
|---|---|---|
| Decimal.IntTextRoundTrip | server/recipe/recipeController.js:55-56 | the decimal text a number is concatenated as parses back to that number |
| Decimal.IntTextInjective | server/recipe/recipeController.js:55-56 | different numbers give different decimal texts |
| QueryString.QueryTextRoundTrip | server/recipe/recipeController.js:52-68 | a non-empty `name=value&…` list, with no `&` in names or values and no `=` in names, splits back into exactly that list |
| QueryBuilder.CourseQuery | server/recipe/recipeController.js:52-68 | a course URL is empty iff its size is falsy; otherwise it starts with the endpoint, credentials, fragment and course tag, and ends with `&maxResult=` size and `&start=` offset |
| QueryBuilder.QueriesFor | server/recipe/recipeController.js:18-75 | a course's query is empty iff its overfetched size is falsy |
| QueryBuilder.AppendSelected | server/recipe/recipeController.js:36-50 | the loop appends `&name=token` for each selected entry, in order, and nothing for unselected ones |
| QueryBuilder.WriteQueries | server/recipe/recipeController.js:18-75 | the three URLs built with loops and string appends equal the specification `QueriesFor` |
| QueryBuilder.ParamsAppend | server/recipe/recipeController.js:36-50 | the parameters of two concatenated selections are the two parameter lists concatenated |
| QueryBuilder.ParamsSingle | server/recipe/recipeController.js:37-48 | a selected entry contributes exactly its translated token, `undefined` when the table lacks the key, and an unselected one nothing |
| QueryBuilder.ParamsMembership | server/recipe/recipeController.js:36-50 | a parameter appears iff some selected entry translates to it |
| QueryBuilder.ParamsCount | server/recipe/recipeController.js:36-50 | there are exactly as many parameters as entries whose flag is set |
| QueryBuilder.FilterOrder | server/recipe/recipeController.js:36-50 | every filter parameter is an allergy, cuisine or diet, and all allergies precede all cuisines, which precede all diets |
| QueryBuilder.SkippedIffFalsy | server/recipe/recipeController.js:24-26 | a course's query is empty iff its count is absent, 0 or -10 |
| QueryBuilder.CourseUrlsShareText | server/recipe/recipeController.js:30-68 | every requested course's URL starts with the endpoint, the credentials, the one shared filter fragment and `&allowedCourse[]=` with its tag, and ends with its size and the one shared offset |
| QueryBuilder.StartAtUrl | server/recipe/recipeController.js:30-68 | every requested URL ends with `&start=` and the running total (`undefined` when unset) for an additional request, and with `&start=0` otherwise |
| QueryBuilder.CourseQueryLayout | server/recipe/recipeController.js:52-68 | a non-empty query is the search endpoint, `?` and its parameter list, and ends with `&maxResult=` (count + 10) and `&start=` (offset) |
| QueryBuilder.CourseQueryReadBack | server/recipe/recipeController.js:52-68 | with plain credentials and tokens, a non-empty URL parses back to its parameters; `maxResult` reads back as count + 10 and a set `start` as the offset |
| QueryBuilder.CoursesShareFilterAndOffset | server/recipe/recipeController.js:30-68 | all courses share the credentials, the filter fragment, `requirePictures` and `start`, differing only in tag and size |
| QueryBuilder.DinnerQueryIsBreakfastQuery | server/recipe/recipeController.js:64-68 | the dinner URL carries the breakfast tag, so equal counts give identical URLs |
| QueryBuilder.PeanutQueries | server/recipe/recipeController.js:18-75 | 5 breakfasts, 0 lunches, unset dinners and the peanut allergy give one allergy parameter, empty lunch and dinner queries, and a breakfast URL ending in `&maxResult=15&start=0` |
| QueryBuilder.DetailQueryLayout | server/recipe/recipeController.js:116-117 | the detail URL is the recipe endpoint, the id, `?` and the two credential parameters |
| Aggregator.Join | server/recipe/recipeController.js:188-204 | resolves iff all three requests resolve with an array, to the three arrays in breakfast, lunch, dinner position; a breakfast rejection is passed on; any rejection carries one of the requests' errors or `MatchesMissing` |
| Aggregator.Aggregate | server/recipe/recipeController.js:188-210 | resolves iff every course resolves with an array; each course holds its own request's matches, an empty query none; a response error on any issued query rejects, with an error from an issued query |
| Aggregator.CreateRecipes | server/recipe/recipeController.js:173-213 | when resolved, a course with a falsy count holds no recipes and every other course holds exactly its URL's matches |
| Aggregator.OnlyRequestsMatter | server/recipe/recipeController.js:82-84 | the result depends on the provider only at the URLs actually requested, so a skipped course issues no request |
| Aggregator.AllSucceed | server/recipe/recipeController.js:188-204 | when every request succeeds, the result is the three courses' matches, with `[]` for skipped courses |
| Aggregator.PeanutRecipes | server/recipe/recipeController.js:173-213 | for the peanut model, the result is the breakfast matches and empty lunch and dinner lists |
| RecipePersister.Project | server/recipe/recipeController.js:138-156 | a record is built iff `attributes` is present, and it keeps the id |
| RecipePersister.ProjectFields | server/recipe/recipeController.js:138-156 | the record copies every field, the first image URLs and the attribute lists, and takes each flavour value from `flavors` when present and none otherwise |
| RecipePersister.Saved | server/recipe/recipeController.js:134-164 | saving never removes or changes a stored record, and adds at most the recipe's own id |
| RecipePersister.SavedInsertsIfAbsent | server/recipe/recipeController.js:134-164 | an existing id is left untouched, a new id gets the projected record, and no other id changes |
| RecipePersister.SavedIdempotent | server/recipe/recipeController.js:134-164 | saving the same recipe twice equals saving it once |
| RecipePersister.SavedKeyedById | server/recipe/recipeController.js:135-157 | saving keeps every record stored under its own id |
| RecipePersister.RecipeTable.Find | server/recipe/recipeController.js:135 | finds a record iff one is stored under that id, and returns it |
| RecipePersister.RecipeTable.SaveRecipe | server/recipe/recipeController.js:134-164 | the new table is `Saved(old table, recipe)`, and records stay keyed by id |
| RecipePersister.SaveTwice | server/recipe/recipeController.js:134-164 | two saves leave the table as one does, holding exactly one record for that id when `attributes` is present |

## Left out

- Credential loading (lines 8-16) reads the environment or a config file. The credentials here are a parameter, including the numeric fallback, which concatenates as its digits.
- The vocabulary tables' contents (`config/libraries`) are a parameter; `config/libraries` is not part of this model.
- The HTTP request, chunk buffering and `JSON.parse` are abstracted into a function from URL to response, so identical URLs are assumed to get identical responses. With the dinner tag reusing the breakfast one, equal breakfast and dinner counts therefore give equal recipes, whereas the code issues two separate requests, one of which may fail while the other succeeds. A body that fails to parse throws inside an event callback rather than rejecting, and that is not modelled.
- `Aggregator.Response`: `ResponseError` stands only for the response stream's `error` event (line 99). The request object that `http.get` returns has no `error` listener, so a request-level failure such as a refused connection is an unhandled error event, and the promise never settles; that is not modelled.
- Promise scheduling is not modelled. When several requests fail, `Promise.all` rejects with whichever fails first in time; the model picks the first failing course in breakfast, lunch, dinner order.
- The `console.log` calls, and wrapping the rejection as `{error: …}`, are not modelled beyond the rejection itself.
- Counts are integers. A non-numeric count would concatenate instead of add, and a fractional or very large count would be printed in JavaScript's floating-point format; neither is modelled.
- Selection flags are booleans. The truthiness of other flag values, and the inherited properties that `for … in` also visits, are not modelled.
- `additionalRequest` is a boolean, so the truthiness of other values at line 30 is not modelled. `totalRecipesRequested` is an integer or absent; a `null` value, which would print as `null`, is not modelled.
- `getToYummly`: only its URL layout (`DetailQuery`) is modelled. Reading the id from the request, the request itself and sending the response are I/O.
- `processIngredients` and `createIngredientsList` only read and log the request body and are not modelled.
- `saveRecipe`: the database lookup and insert are a map in memory. The asynchronous gap between lookup and insert, so two concurrent saves racing, is not modelled, and neither are logged insert failures.
- `RecipePersister.RecipeDetail`: `recipeName`, `sourceDisplayName` and `ingredients` are always present, and `totalTimeInSeconds` and `rating` are always-present integers; an undefined, `null` or fractional value is not modelled.
- QueryBuilder.CourseQueryReadBack: an unset `start` renders as `undefined`, and the lemma does not state how that text reads back.
