/**
 * The recipe-search query builder: from a query model to one provider search
 * URL per course, or the empty string for a course that is not requested.
 */
module QueryBuilder {
  import opened Wrappers
  import opened Decimal
  import opened QueryString

  /** One selection map of the query model: its (key, flag) entries in enumeration order. */
  type Selection = seq<(string, bool)>

  datatype QueryModel = QueryModel(
    allowedAllergy: Selection,
    allowedCuisine: Selection,
    allowedDiet: Selection,
    numBreakfasts: Option<int>,
    numLunches: Option<int>,
    numDinners: Option<int>,
    additionalRequest: bool,
    totalRecipesRequested: Option<int>)

  /** The static vocabulary: filter key to provider token, and the course tags. */
  datatype Library = Library(
    allergyLibrary: map<string, string>,
    cuisineLibrary: map<string, string>,
    dietLibrary: map<string, string>,
    breakfastCourse: string,
    lunchCourse: string)

  datatype Credentials = Credentials(appId: string, apiKey: string)

  datatype Queries = Queries(breakfastQuery: string, lunchQuery: string, dinnerQuery: string)

  datatype Course = Breakfast | Lunch | Dinner

  const SearchBase := "http://api.yummly.com/v1/api/recipes"
  const DetailBase := "http://api.yummly.com/v1/api/recipe/"

  /** Courses are overfetched by this many recipes, for queueing on the client. */
  const OverfetchMargin := 10

  const AllergyParam := "allowedAllergy[]"
  const CuisineParam := "allowedCuisine[]"
  const DietParam := "allowedDiet[]"

  /** A table lookup; a key the table lacks concatenates as "undefined". */
  function Token(table: map<string, string>, key: string): (r: string)
    ensures key in table ==> r == table[key]
    ensures key !in table ==> r == "undefined"
  {
    if key in table then table[key] else "undefined"
  }

  /** One `name=token` parameter per entry whose flag is set, in entry order. */
  function Params(name: string, sel: Selection, table: map<string, string>): seq<Param> {
    if sel == [] then []
    else (if sel[0].1 then [Param(name, Token(table, sel[0].0))] else []) + Params(name, sel[1..], table)
  }

  /** The filter parameters every course shares: allergies, then cuisines, then diets. */
  function FilterParams(lib: Library, model: QueryModel): seq<Param> {
    Params(AllergyParam, model.allowedAllergy, lib.allergyLibrary)
      + Params(CuisineParam, model.allowedCuisine, lib.cuisineLibrary)
      + Params(DietParam, model.allowedDiet, lib.dietLibrary)
  }

  /** JavaScript truthiness of a number that may be undefined. */
  predicate Truthy(v: Option<int>) {
    v.Some? && v.value != 0
  }

  /** `n && n + 10`: a falsy count stays as it is, any other is overfetched. */
  function MaxResult(n: Option<int>): (r: Option<int>)
    ensures Truthy(n) ==> r == Some(n.value + OverfetchMargin)
    ensures !Truthy(n) ==> r == n
  {
    if Truthy(n) then Some(n.value + OverfetchMargin) else n
  }

  /** The page offset: the running total for a follow-up request, 0 for a fresh one. */
  function Start(model: QueryModel): (r: Option<int>)
    ensures model.additionalRequest ==> r == model.totalRecipesRequested
    ensures !model.additionalRequest ==> r == Some(0)
  {
    if model.additionalRequest then model.totalRecipesRequested else Some(0)
  }

  function CountOf(model: QueryModel, c: Course): Option<int> {
    match c
    case Breakfast => model.numBreakfasts
    case Lunch => model.numLunches
    case Dinner => model.numDinners
  }

  /** The course tag each query carries; the dinner query reuses the breakfast tag. */
  function CourseTag(lib: Library, c: Course): string {
    match c
    case Breakfast => lib.breakfastCourse
    case Lunch => lib.lunchCourse
    case Dinner => lib.breakfastCourse
  }

  function QueryOf(qs: Queries, c: Course): string {
    match c
    case Breakfast => qs.breakfastQuery
    case Lunch => qs.lunchQuery
    case Dinner => qs.dinnerQuery
  }

  /**
   * One course's URL, concatenated piece by piece, or "" when the fetch size is
   * falsy. A URL starts with the endpoint, the credentials, the filter fragment
   * and the course tag, and ends with the size and the offset.
   */
  function CourseQuery(cred: Credentials, fragment: string, tag: string, size: Option<int>, start: Option<int>): (r: string)
    ensures r == "" <==> !Truthy(size)
    ensures Truthy(size) ==>
      var head := CourseHead(cred, fragment, tag);
      StartsWith(r, head)
    ensures Truthy(size) ==>
      var tail := "&maxResult=" + NumberText(size) + "&start=" + NumberText(start);
      EndsWith(r, tail)
  {
    if Truthy(size) then
      var head := CourseHead(cred, fragment, tag);
      var ms, ss := NumberText(size), NumberText(start);
      Frame(head, "&requirePictures=true", "&maxResult=", ms, "&start=", ss);
      head + "&requirePictures=true" + "&maxResult=" + ms + "&start=" + ss
    else ""
  }

  /** The part of a course URL up to and including its course tag. */
  function CourseHead(cred: Credentials, fragment: string, tag: string): string {
    SearchBase + "?_app_id=" + cred.appId + "&_app_key=" + cred.apiKey + fragment + "&allowedCourse[]=" + tag
  }

  /** A concatenation starts with its first piece and ends with its last four. */
  lemma Frame(h: string, a: string, b: string, c: string, d: string, e: string)
    ensures var r := h + a + b + c + d + e;
            var t := b + c + d + e;
            && StartsWith(r, h)
            && EndsWith(r, t)
  {
    var r := h + a + b + c + d + e;
    var t := b + c + d + e;
    assert r == h + (a + t);
    assert r == (h + a) + t;
  }

  /**
   * What `writeQueries` returns for a query model: a course is skipped exactly
   * when its fetch size is falsy.
   */
  function QueriesFor(cred: Credentials, lib: Library, model: QueryModel): (qs: Queries)
    ensures qs.breakfastQuery == "" <==> !Truthy(MaxResult(model.numBreakfasts))
    ensures qs.lunchQuery == "" <==> !Truthy(MaxResult(model.numLunches))
    ensures qs.dinnerQuery == "" <==> !Truthy(MaxResult(model.numDinners))
  {
    var fragment := Render(FilterParams(lib, model));
    var start := Start(model);
    Queries(
      CourseQuery(cred, fragment, CourseTag(lib, Breakfast), MaxResult(model.numBreakfasts), start),
      CourseQuery(cred, fragment, CourseTag(lib, Lunch), MaxResult(model.numLunches), start),
      CourseQuery(cred, fragment, CourseTag(lib, Dinner), MaxResult(model.numDinners), start))
  }

  /** The parameters of a requested course's URL, in the order they appear. */
  function CourseParams(cred: Credentials, lib: Library, model: QueryModel, c: Course): seq<Param> {
    ParamsOf(cred, FilterParams(lib, model), CourseTag(lib, c),
             NumberText(MaxResult(CountOf(model, c))), NumberText(Start(model)))
  }

  /** The parameters of a search URL: credentials, filters, then the four closing ones. */
  function ParamsOf(cred: Credentials, filter: seq<Param>, tag: string, ms: string, ss: string): seq<Param> {
    [Param("_app_id", cred.appId), Param("_app_key", cred.apiKey)]
      + filter
      + [Param("allowedCourse[]", tag), Param("requirePictures", "true"),
         Param("maxResult", ms), Param("start", ss)]
  }

  /** Reads a search URL back into its parameters. */
  function ParseSearchUrl(url: string): Option<seq<Param>> {
    var head := SearchBase + "?";
    if |head| <= |url| && url[..|head|] == head then ParseQueryText(url[|head|..]) else None
  }

  /** The URL `getToYummly` requests for one recipe's details. */
  function DetailQuery(cred: Credentials, recipeId: string): string {
    DetailBase + recipeId + "?_app_id=" + cred.appId + "&_app_key=" + cred.apiKey
  }

  /** Appends one parameter per selected entry to s, as each `for...in` loop of `writeQueries` does. */
  method AppendSelected(s: string, name: string, sel: Selection, table: map<string, string>)
    returns (r: string)
    ensures r == s + Render(Params(name, sel, table))
  {
    r := s;
    var i := 0;
    while i < |sel|
      invariant 0 <= i <= |sel|
      invariant r == s + Render(Params(name, sel[..i], table))
    {
      var (key, selected) := sel[i];
      SelectedStep(name, sel, i, table);
      if selected {
        r := r + ("&" + name + "=" + Token(table, key));
      }
      i := i + 1;
    }
    assert sel[..|sel|] == sel;
  }

  /** One more entry appends its parameter text, if it is selected, and nothing otherwise. */
  lemma SelectedStep(name: string, sel: Selection, i: nat, table: map<string, string>)
    requires i < |sel|
    ensures Render(Params(name, sel[..i + 1], table))
         == Render(Params(name, sel[..i], table))
            + (if sel[i].1 then "&" + name + "=" + Token(table, sel[i].0) else "")
  {
    var before := Params(name, sel[..i], table);
    var step := Params(name, [sel[i]], table);
    ParamsAppend(name, sel[..i], [sel[i]], table);
    assert sel[..i + 1] == sel[..i] + [sel[i]];
    RenderAppend(before, step);
    StepText(name, sel[i].0, sel[i].1, table);
  }

  lemma StepText(name: string, key: string, selected: bool, table: map<string, string>)
    ensures Render(Params(name, [(key, selected)], table))
         == if selected then "&" + name + "=" + Token(table, key) else ""
  {
    ParamsSingle(name, key, selected, table);
    if selected {
      RenderOne(Param(name, Token(table, key)));
    }
  }

  /** `writeQueries`: builds the shared filter fragment step by step, then the three course URLs. */
  method WriteQueries(cred: Credentials, lib: Library, model: QueryModel) returns (qs: Queries)
    ensures qs == QueriesFor(cred, lib, model)
  {
    var numBreakfasts := MaxResult(model.numBreakfasts);
    var numLunches := MaxResult(model.numLunches);
    var numDinners := MaxResult(model.numDinners);
    var start := Start(model);

    ghost var allergies := Params(AllergyParam, model.allowedAllergy, lib.allergyLibrary);
    ghost var cuisines := Params(CuisineParam, model.allowedCuisine, lib.cuisineLibrary);
    ghost var diets := Params(DietParam, model.allowedDiet, lib.dietLibrary);
    var queryString := "";
    queryString := AppendSelected(queryString, AllergyParam, model.allowedAllergy, lib.allergyLibrary);
    assert queryString == Render(allergies);
    queryString := AppendSelected(queryString, CuisineParam, model.allowedCuisine, lib.cuisineLibrary);
    RenderAppend(allergies, cuisines);
    assert queryString == Render(allergies + cuisines);
    queryString := AppendSelected(queryString, DietParam, model.allowedDiet, lib.dietLibrary);
    RenderAppend(allergies + cuisines, diets);
    assert queryString == Render(FilterParams(lib, model));

    var breakfastQuery := CourseQuery(cred, queryString, lib.breakfastCourse, numBreakfasts, start);
    var lunchQuery := CourseQuery(cred, queryString, lib.lunchCourse, numLunches, start);
    var dinnerQuery := CourseQuery(cred, queryString, lib.breakfastCourse, numDinners, start);
    qs := Queries(breakfastQuery, lunchQuery, dinnerQuery);
  }

  // ---- Properties of the queries ----

  /** Parameters of selected entries compose: the selection can be cut anywhere. */
  lemma {:induction false} ParamsAppend(name: string, a: Selection, b: Selection, table: map<string, string>)
    ensures Params(name, a + b, table) == Params(name, a, table) + Params(name, b, table)
  {
    if a == [] {
      assert a + b == b;
    } else {
      var head := if a[0].1 then [Param(name, Token(table, a[0].0))] else [];
      assert (a + b)[0] == a[0];
      assert (a + b)[1..] == a[1..] + b;
      assert Params(name, a + b, table) == head + Params(name, a[1..] + b, table);
      ParamsAppend(name, a[1..], b, table);
      assert Params(name, a, table) == head + Params(name, a[1..], table);
    }
  }

  /** A selected entry contributes exactly its translated token; an unselected one nothing. */
  lemma ParamsSingle(name: string, key: string, selected: bool, table: map<string, string>)
    ensures Params(name, [(key, selected)], table)
         == if selected then [Param(name, Token(table, key))] else []
    ensures selected && key !in table ==> Params(name, [(key, selected)], table) == [Param(name, "undefined")]
  {
    assert [(key, selected)][1..] == [];
  }

  /** A parameter comes out of a selection exactly when some selected entry translates to it. */
  lemma {:induction false} ParamsMembership(name: string, sel: Selection, table: map<string, string>, p: Param)
    ensures p in Params(name, sel, table)
        <==> exists j :: 0 <= j < |sel| && sel[j].1 && p == Param(name, Token(table, sel[j].0))
  {
    if sel != [] {
      ParamsMembership(name, sel[1..], table, p);
      if exists j :: 0 <= j < |sel[1..]| && sel[1..][j].1 && p == Param(name, Token(table, sel[1..][j].0)) {
        var j :| 0 <= j < |sel[1..]| && sel[1..][j].1 && p == Param(name, Token(table, sel[1..][j].0));
        assert sel[j + 1] == sel[1..][j];
      }
      if exists j :: 0 <= j < |sel| && sel[j].1 && p == Param(name, Token(table, sel[j].0)) {
        var j :| 0 <= j < |sel| && sel[j].1 && p == Param(name, Token(table, sel[j].0));
        if j > 0 {
          assert sel[1..][j - 1] == sel[j];
        }
      }
    }
  }

  /** The flags of a selection, in entry order. */
  function Flags(sel: Selection): (fs: seq<bool>)
    ensures |fs| == |sel| && forall i :: 0 <= i < |sel| ==> fs[i] == sel[i].1
  {
    seq(|sel|, i requires 0 <= i < |sel| => sel[i].1)
  }

  /** There are exactly as many parameters as entries whose flag is set. */
  lemma {:induction false} ParamsCount(name: string, sel: Selection, table: map<string, string>)
    ensures |Params(name, sel, table)| == multiset(Flags(sel))[true]
  {
    if sel != [] {
      ParamsCount(name, sel[1..], table);
      assert Flags(sel) == [sel[0].1] + Flags(sel[1..]);
    }
  }

  /** Every parameter of a selection carries that selection's parameter name. */
  lemma {:induction false} ParamsNamed(name: string, sel: Selection, table: map<string, string>)
    ensures forall i :: 0 <= i < |Params(name, sel, table)| ==> Params(name, sel, table)[i].name == name
  {
    if sel != [] {
      ParamsNamed(name, sel[1..], table);
    }
  }

  function Rank(name: string): nat {
    if name == AllergyParam then 0 else if name == CuisineParam then 1 else 2
  }

  /** The shared filter lists all allergies, then all cuisines, then all diets. */
  lemma FilterOrder(lib: Library, model: QueryModel)
    ensures forall i :: 0 <= i < |FilterParams(lib, model)| ==>
      FilterParams(lib, model)[i].name in {AllergyParam, CuisineParam, DietParam}
    ensures forall i, j :: 0 <= i < j < |FilterParams(lib, model)| ==>
      Rank(FilterParams(lib, model)[i].name) <= Rank(FilterParams(lib, model)[j].name)
  {
    ParamsNamed(AllergyParam, model.allowedAllergy, lib.allergyLibrary);
    ParamsNamed(CuisineParam, model.allowedCuisine, lib.cuisineLibrary);
    ParamsNamed(DietParam, model.allowedDiet, lib.dietLibrary);
  }

  /** A course is skipped exactly when its count is absent, 0, or -10 (so that `n + 10` is 0). */
  lemma SkippedIffFalsy(cred: Credentials, lib: Library, model: QueryModel, c: Course)
    ensures QueryOf(QueriesFor(cred, lib, model), c) == ""
        <==> CountOf(model, c) == None || CountOf(model, c) == Some(0) || CountOf(model, c) == Some(-10)
  {
  }

  /** Each course's query is its own `CourseQuery`, from the shared fragment and offset. */
  lemma QueryOfCourse(cred: Credentials, lib: Library, model: QueryModel, c: Course)
    ensures QueryOf(QueriesFor(cred, lib, model), c)
         == CourseQuery(cred, Render(FilterParams(lib, model)), CourseTag(lib, c),
                        MaxResult(CountOf(model, c)), Start(model))
  {
  }

  /**
   * Every requested course's URL starts with the endpoint, the credentials, the
   * one shared filter fragment and its own course tag, and ends with its size
   * and the one shared offset.
   */
  lemma CourseUrlsShareText(cred: Credentials, lib: Library, model: QueryModel)
    ensures forall c :: QueryOf(QueriesFor(cred, lib, model), c) != "" ==>
      var q := QueryOf(QueriesFor(cred, lib, model), c);
      var head := CourseHead(cred, Render(FilterParams(lib, model)), CourseTag(lib, c));
      StartsWith(q, head)
    ensures forall c :: QueryOf(QueriesFor(cred, lib, model), c) != "" ==>
      var q := QueryOf(QueriesFor(cred, lib, model), c);
      var tail := "&maxResult=" + NumberText(MaxResult(CountOf(model, c))) + "&start=" + NumberText(Start(model));
      EndsWith(q, tail)
  {
    forall c {
      CourseUrlText(cred, lib, model, c);
    }
  }

  /**
   * The offset a requested URL ends with: the running total written out for
   * an additional request (`undefined` when unset), and `0` otherwise.
   */
  lemma StartAtUrl(cred: Credentials, lib: Library, model: QueryModel, c: Course)
    requires QueryOf(QueriesFor(cred, lib, model), c) != ""
    ensures var q := QueryOf(QueriesFor(cred, lib, model), c);
            var tail := "&start=" + (if model.additionalRequest then NumberText(model.totalRecipesRequested) else "0");
            EndsWith(q, tail)
  {
    var q := QueryOf(QueriesFor(cred, lib, model), c);
    CourseUrlText(cred, lib, model, c);
    StartSuffix(q, NumberText(MaxResult(CountOf(model, c))), model);
  }

  /** A text ending in the size and the offset ends in the offset, written out by cases. */
  lemma StartSuffix(q: string, ms: string, model: QueryModel)
    requires var tail := "&maxResult=" + ms + "&start=" + NumberText(Start(model));
             EndsWith(q, tail)
    ensures var tail := "&start=" + (if model.additionalRequest then NumberText(model.totalRecipesRequested) else "0");
            EndsWith(q, tail)
  {
    var ss := NumberText(Start(model));
    var st := if model.additionalRequest then NumberText(model.totalRecipesRequested) else "0";
    EndsWithEnd(q, "&maxResult=" + ms, "&start=", ss);
    StartText(model);
    assert ss == st;
  }

  /** A text ending in a + b + c also ends in b + c. */
  lemma EndsWithEnd(q: string, a: string, b: string, c: string)
    requires EndsWith(q, a + b + c)
    ensures EndsWith(q, b + c)
  {
    assert a + b + c == a + (b + c);
    assert q[|q| - |b + c|..] == (a + (b + c))[|a|..];
  }

  lemma StartText(model: QueryModel)
    ensures NumberText(Start(model))
         == if model.additionalRequest then NumberText(model.totalRecipesRequested) else "0"
  {
    if !model.additionalRequest {
      assert NatText(0) == "0";
    }
  }

  lemma CourseUrlText(cred: Credentials, lib: Library, model: QueryModel, c: Course)
    ensures var q := QueryOf(QueriesFor(cred, lib, model), c);
            var head := CourseHead(cred, Render(FilterParams(lib, model)), CourseTag(lib, c));
            var tail := "&maxResult=" + NumberText(MaxResult(CountOf(model, c))) + "&start=" + NumberText(Start(model));
            q != "" ==> StartsWith(q, head) && EndsWith(q, tail)
  {
    var fragment, tag, size := Render(FilterParams(lib, model)), CourseTag(lib, c), MaxResult(CountOf(model, c));
    QueryOfCourse(cred, lib, model, c);
    var q := CourseQuery(cred, fragment, tag, size, Start(model));
    assert QueryOf(QueriesFor(cred, lib, model), c) == q;
  }

  /**
   * A requested course's URL is the search endpoint followed by its parameters,
   * and it ends with the overfetched size and the shared offset.
   */
  lemma CourseQueryLayout(cred: Credentials, lib: Library, model: QueryModel, c: Course)
    requires QueryOf(QueriesFor(cred, lib, model), c) != ""
    ensures CountOf(model, c).Some?
    ensures QueryOf(QueriesFor(cred, lib, model), c)
         == SearchBase + "?" + QueryText(CourseParams(cred, lib, model, c))
    ensures var tail := "&maxResult=" + IntText(CountOf(model, c).value + OverfetchMargin)
                        + "&start=" + NumberText(Start(model));
            var q := QueryOf(QueriesFor(cred, lib, model), c);
            EndsWith(q, tail)
  {
    var q := QueryOf(QueriesFor(cred, lib, model), c);
    var size := MaxResult(CountOf(model, c));
    var filter := FilterParams(lib, model);
    var tag := CourseTag(lib, c);
    QueryOfCourse(cred, lib, model, c);
    assert q == CourseQuery(cred, Render(filter), tag, size, Start(model));
    assert Truthy(size);
    assert NumberText(size) == IntText(CountOf(model, c).value + OverfetchMargin);
    CourseQueryText(cred, filter, tag, size, Start(model));
  }

  lemma CourseQueryText(cred: Credentials, filter: seq<Param>, tag: string, size: Option<int>, start: Option<int>)
    requires Truthy(size)
    ensures CourseQuery(cred, Render(filter), tag, size, start)
         == SearchBase + "?" + QueryText(ParamsOf(cred, filter, tag, NumberText(size), NumberText(start)))
  {
    var ms := NumberText(size);
    var ss := NumberText(start);
    ParamsText(cred, filter, tag, ms, ss);
    BaseText();
    Prepend(SearchBase, "?", "_app_id=", cred.appId, "&_app_key=", cred.apiKey, Render(filter),
            "&allowedCourse[]=", tag, "&requirePictures=true", "&maxResult=", ms, "&start=", ss);
  }

  /**
   * Literal facts and regroupings kept in lemmas of their own: inside the larger
   * proofs above, the solver does not find them within its resource budget.
   */
  lemma BaseText()
    ensures SearchBase + "?" + "_app_id=" == SearchBase + "?_app_id="
  {
  }

  lemma Prepend(a: string, b: string, x1: string, x2: string, x3: string, x4: string, x5: string, x6: string,
                x7: string, x8: string, x9: string, x10: string, x11: string, x12: string)
    ensures a + b + (x1 + x2 + x3 + x4 + x5 + x6 + x7 + x8 + x9 + x10 + x11 + x12)
         == a + b + x1 + x2 + x3 + x4 + x5 + x6 + x7 + x8 + x9 + x10 + x11 + x12
  {
  }

  lemma ParamsText(cred: Credentials, filter: seq<Param>, tag: string, ms: string, ss: string)
    ensures QueryText(ParamsOf(cred, filter, tag, ms, ss))
         == "_app_id=" + cred.appId + "&_app_key=" + cred.apiKey + Render(filter)
            + "&allowedCourse[]=" + tag + "&requirePictures=true" + "&maxResult=" + ms + "&start=" + ss
  {
    var ps := ParamsOf(cred, filter, tag, ms, ss);
    var id := Param("_app_id", cred.appId);
    var key := Param("_app_key", cred.apiKey);
    var tailParams := [Param("allowedCourse[]", tag), Param("requirePictures", "true"),
                       Param("maxResult", ms), Param("start", ss)];
    var rest := [key] + filter + tailParams;
    assert ps == [id] + rest;
    assert ps[0] == id && ps[1..] == rest;
    RenderAppend([key] + filter, tailParams);
    RenderAppend([key], filter);
    KeyText(cred.apiKey);
    TailText(tag, ms, ss);
    var t := "&allowedCourse[]=" + tag + "&requirePictures=true" + "&maxResult=" + ms + "&start=" + ss;
    var r := Render(filter);
    var k := "&_app_key=" + cred.apiKey;
    assert Render([key] + filter) == k + r;
    assert Render(rest) == k + r + t;
    IdText(cred.appId);
    assert QueryText(ps) == ("_app_id=" + cred.appId) + ((k + r) + t);
    Regroup("_app_id=", cred.appId, "&_app_key=", cred.apiKey, r, "&allowedCourse[]=", tag,
            "&requirePictures=true", "&maxResult=", ms, "&start=", ss);
  }

  /** Concatenation is associative: the grouping the proofs above need. */
  lemma Regroup(x1: string, x2: string, x3: string, x4: string, x5: string, x6: string,
                x7: string, x8: string, x9: string, x10: string, x11: string, x12: string)
    ensures (x1 + x2) + ((x3 + x4 + x5) + (x6 + x7 + x8 + x9 + x10 + x11 + x12))
         == x1 + x2 + x3 + x4 + x5 + x6 + x7 + x8 + x9 + x10 + x11 + x12
  {
  }

  lemma IdText(appId: string)
    ensures Pair(Param("_app_id", appId)) == "_app_id=" + appId
  {
  }

  lemma KeyText(apiKey: string)
    ensures Render([Param("_app_key", apiKey)]) == "&_app_key=" + apiKey
  {
    var key := Param("_app_key", apiKey);
    RenderCons(key, []);
    assert [key] + [] == [key];
  }

  /** The text of the four parameters that close a course URL. */
  lemma TailText(tag: string, ms: string, ss: string)
    ensures Render([Param("allowedCourse[]", tag), Param("requirePictures", "true"),
                    Param("maxResult", ms), Param("start", ss)])
         == "&allowedCourse[]=" + tag + "&requirePictures=true" + "&maxResult=" + ms + "&start=" + ss
  {
    var p0, p1, p2, p3 := Param("allowedCourse[]", tag), Param("requirePictures", "true"),
                          Param("maxResult", ms), Param("start", ss);
    assert [p0, p1, p2, p3] == [p0] + [p1] + [p2] + [p3];
    RenderAppend([p0] + [p1] + [p2], [p3]);
    RenderAppend([p0] + [p1], [p2]);
    RenderAppend([p0], [p1]);
    RenderOne(p0);
    RenderOne(p1);
    RenderOne(p2);
    RenderOne(p3);
    TailLiterals();
    Flatten("&allowedCourse[]=", tag, "&requirePictures=true", "&maxResult=", ms, "&start=", ss);
  }

  /** The closing parameters' names, written with their separators. */
  lemma TailLiterals()
    ensures "&" + "allowedCourse[]" + "=" == "&allowedCourse[]="
    ensures "&" + "requirePictures" + "=" + "true" == "&requirePictures=true"
    ensures "&" + "maxResult" + "=" == "&maxResult="
    ensures "&" + "start" + "=" == "&start="
  {
  }

  lemma Flatten(a: string, b: string, c: string, d: string, e: string, f: string, g: string)
    ensures (a + b) + c + (d + e) + (f + g) == a + b + c + d + e + f + g
  {
  }

  predicate PlainTable(table: map<string, string>) {
    forall k :: k in table ==> '&' !in table[k]
  }

  /** Nothing in the credentials or the vocabulary holds the separator '&'. */
  predicate PlainInputs(cred: Credentials, lib: Library) {
    && '&' !in cred.appId && '&' !in cred.apiKey
    && PlainTable(lib.allergyLibrary) && PlainTable(lib.cuisineLibrary) && PlainTable(lib.dietLibrary)
    && '&' !in lib.breakfastCourse && '&' !in lib.lunchCourse
  }

  lemma {:induction false} ParamsPlain(name: string, sel: Selection, table: map<string, string>)
    requires '&' !in name && '=' !in name && PlainTable(table)
    ensures forall i :: 0 <= i < |Params(name, sel, table)| ==> Plain(Params(name, sel, table)[i])
  {
    if sel != [] {
      ParamsPlain(name, sel[1..], table);
    }
  }

  lemma NumberTextPlain(v: Option<int>)
    ensures '&' !in NumberText(v)
  {
    if v.Some? {
      var s := IntText(v.value);
      assert forall i :: 0 <= i < |s| ==> s[i] != '&';
    }
  }

  /** Reading a search URL strips the endpoint and reads the query text. */
  lemma ParseSearchUrlOf(text: string)
    ensures ParseSearchUrl(SearchBase + "?" + text) == ParseQueryText(text)
  {
    var head := SearchBase + "?";
    assert (head + text)[..|head|] == head && (head + text)[|head|..] == text;
  }

  lemma ParamsOfPlain(cred: Credentials, filter: seq<Param>, tag: string, ms: string, ss: string)
    requires '&' !in cred.appId && '&' !in cred.apiKey && '&' !in tag && '&' !in ms && '&' !in ss
    requires forall i :: 0 <= i < |filter| ==> Plain(filter[i])
    ensures var ps := ParamsOf(cred, filter, tag, ms, ss);
            forall i :: 0 <= i < |ps| ==> Plain(ps[i])
  {
    var head := [Param("_app_id", cred.appId), Param("_app_key", cred.apiKey)];
    var tail := [Param("allowedCourse[]", tag), Param("requirePictures", "true"),
                 Param("maxResult", ms), Param("start", ss)];
    HeadPlain(cred);
    TailPlain(tag, ms, ss);
    AllPlainAppend(head, filter);
    AllPlainAppend(head + filter, tail);
  }

  lemma HeadPlain(cred: Credentials)
    requires '&' !in cred.appId && '&' !in cred.apiKey
    ensures var head := [Param("_app_id", cred.appId), Param("_app_key", cred.apiKey)];
            forall i :: 0 <= i < |head| ==> Plain(head[i])
  {
    assert Plain(Param("_app_id", cred.appId));
    assert Plain(Param("_app_key", cred.apiKey));
  }

  lemma TailPlain(tag: string, ms: string, ss: string)
    requires '&' !in tag && '&' !in ms && '&' !in ss
    ensures var tail := [Param("allowedCourse[]", tag), Param("requirePictures", "true"),
                         Param("maxResult", ms), Param("start", ss)];
            forall i :: 0 <= i < |tail| ==> Plain(tail[i])
  {
    TailNamesPlain();
  }

  lemma TailNamesPlain()
    ensures '&' !in "allowedCourse[]" && '=' !in "allowedCourse[]"
    ensures '&' !in "requirePictures" && '=' !in "requirePictures" && '&' !in "true"
    ensures '&' !in "maxResult" && '=' !in "maxResult"
    ensures '&' !in "start" && '=' !in "start"
  {
  }

  lemma AllPlainAppend(a: seq<Param>, b: seq<Param>)
    requires forall i :: 0 <= i < |a| ==> Plain(a[i])
    requires forall i :: 0 <= i < |b| ==> Plain(b[i])
    ensures forall i :: 0 <= i < |a + b| ==> Plain((a + b)[i])
  {
  }

  lemma FilterPlain(lib: Library, model: QueryModel)
    requires PlainTable(lib.allergyLibrary) && PlainTable(lib.cuisineLibrary) && PlainTable(lib.dietLibrary)
    ensures forall i :: 0 <= i < |FilterParams(lib, model)| ==> Plain(FilterParams(lib, model)[i])
  {
    ParamsPlain(AllergyParam, model.allowedAllergy, lib.allergyLibrary);
    ParamsPlain(CuisineParam, model.allowedCuisine, lib.cuisineLibrary);
    ParamsPlain(DietParam, model.allowedDiet, lib.dietLibrary);
  }

  /**
   * With nothing holding '&', reading a requested course's URL back yields
   * its parameters: the credentials, one filter per selected entry, the course
   * tag, the picture flag, `n + 10` as maxResult and the offset as start.
   */
  lemma CourseQueryReadBack(cred: Credentials, lib: Library, model: QueryModel, c: Course)
    requires PlainInputs(cred, lib)
    requires QueryOf(QueriesFor(cred, lib, model), c) != ""
    ensures ParseSearchUrl(QueryOf(QueriesFor(cred, lib, model), c)) == Some(CourseParams(cred, lib, model, c))
    ensures var ps := CourseParams(cred, lib, model, c);
            && ps[|ps| - 2].name == "maxResult"
            && ParseInt(ps[|ps| - 2].value) == Some(CountOf(model, c).value + OverfetchMargin)
            && ps[|ps| - 1].name == "start"
            && (Start(model).Some? ==> ParseInt(ps[|ps| - 1].value) == Start(model))
  {
    CourseQueryLayout(cred, lib, model, c);
    var n := CountOf(model, c).value + OverfetchMargin;
    var filter, tag := FilterParams(lib, model), CourseTag(lib, c);
    var ms, ss := NumberText(MaxResult(CountOf(model, c))), NumberText(Start(model));
    FilterPlain(lib, model);
    NumberTextPlain(MaxResult(CountOf(model, c)));
    NumberTextPlain(Start(model));
    assert '&' !in tag;
    SearchUrlReadBack(cred, filter, tag, ms, ss);
    ClosingParams(cred, filter, tag, ms, ss);
    assert ms == IntText(n);
    IntTextRoundTrip(n);
    if Start(model).Some? {
      IntTextRoundTrip(Start(model).value);
    }
  }

  /** A search URL over plain parameters reads back as exactly those parameters. */
  lemma SearchUrlReadBack(cred: Credentials, filter: seq<Param>, tag: string, ms: string, ss: string)
    requires '&' !in cred.appId && '&' !in cred.apiKey && '&' !in tag && '&' !in ms && '&' !in ss
    requires forall i :: 0 <= i < |filter| ==> Plain(filter[i])
    ensures ParseSearchUrl(SearchBase + "?" + QueryText(ParamsOf(cred, filter, tag, ms, ss)))
         == Some(ParamsOf(cred, filter, tag, ms, ss))
  {
    var ps := ParamsOf(cred, filter, tag, ms, ss);
    ParamsOfPlain(cred, filter, tag, ms, ss);
    QueryTextRoundTrip(ps);
    ParseSearchUrlOf(QueryText(ps));
  }

  /** The last two parameters of a search URL are the size and the offset. */
  lemma ClosingParams(cred: Credentials, filter: seq<Param>, tag: string, ms: string, ss: string)
    ensures var ps := ParamsOf(cred, filter, tag, ms, ss);
            ps[|ps| - 2] == Param("maxResult", ms) && ps[|ps| - 1] == Param("start", ss)
  {
  }

  /**
   * Any two requested courses' URLs carry the same parameters except for the
   * course tag and the size: the same credentials, filter fragment and offset.
   */
  lemma CoursesShareFilterAndOffset(cred: Credentials, lib: Library, model: QueryModel, c1: Course, c2: Course)
    ensures var p1 := CourseParams(cred, lib, model, c1);
            var p2 := CourseParams(cred, lib, model, c2);
            && |p1| == |p2|
            && p1[..|p1| - 4] == p2[..|p2| - 4]
            && p1[..|p1| - 4] == [Param("_app_id", cred.appId), Param("_app_key", cred.apiKey)] + FilterParams(lib, model)
            && p1[|p1| - 3] == p2[|p2| - 3]
            && p1[|p1| - 1] == p2[|p2| - 1]
  {
    var p1 := CourseParams(cred, lib, model, c1);
    var p2 := CourseParams(cred, lib, model, c2);
    var head := [Param("_app_id", cred.appId), Param("_app_key", cred.apiKey)] + FilterParams(lib, model);
    assert p1[..|p1| - 4] == head;
    assert p2[..|p2| - 4] == head;
  }

  /** The dinner URL carries the breakfast tag, so equal counts give identical URLs. */
  lemma DinnerQueryIsBreakfastQuery(cred: Credentials, lib: Library, model: QueryModel)
    requires model.numDinners == model.numBreakfasts
    ensures QueriesFor(cred, lib, model).dinnerQuery == QueriesFor(cred, lib, model).breakfastQuery
  {
  }

  /** Five breakfasts, no lunches, dinners unset, the peanut allergy selected. */
  const PeanutModel := QueryModel([("Peanut", true)], [], [], Some(5), Some(0), None, false, None)

  /**
   * For that model only the breakfast query is issued, with one allergy
   * parameter, and it ends with `maxResult=15&start=0`.
   */
  lemma PeanutQueries(cred: Credentials, lib: Library)
    ensures FilterParams(lib, PeanutModel) == [Param(AllergyParam, Token(lib.allergyLibrary, "Peanut"))]
    ensures var qs := QueriesFor(cred, lib, PeanutModel);
            var tail := "&maxResult=15&start=0";
            && qs.lunchQuery == "" && qs.dinnerQuery == "" && qs.breakfastQuery != ""
            && EndsWith(qs.breakfastQuery, tail)
  {
    ParamsSingle(AllergyParam, "Peanut", true, lib.allergyLibrary);
    assert Params(CuisineParam, [], lib.cuisineLibrary) == [] && Params(DietParam, [], lib.dietLibrary) == [];
    CourseQueryLayout(cred, lib, PeanutModel, Breakfast);
    PeanutTail();
  }

  lemma PeanutTail()
    ensures "&maxResult=" + IntText(5 + OverfetchMargin) + "&start=" + NumberText(Some(0)) == "&maxResult=15&start=0"
  {
    assert NatText(1) == "1";
    assert IntText(15) == "15";
  }

  /** The detail URL is the recipe endpoint, the id, and the two credentials. */
  lemma DetailQueryLayout(cred: Credentials, recipeId: string)
    ensures DetailQuery(cred, recipeId)
         == DetailBase + recipeId + "?" + QueryText([Param("_app_id", cred.appId), Param("_app_key", cred.apiKey)])
  {
    var ps := [Param("_app_id", cred.appId), Param("_app_key", cred.apiKey)];
    var key := "&_app_key=" + cred.apiKey;
    assert Render(ps[1..]) == key by {
      assert ps[1..][1..] == [];
    }
    assert QueryText(ps) == "_app_id=" + cred.appId + key;
    var id := "_app_id=" + cred.appId;
    assert DetailBase + recipeId + "?" + (id + key) == DetailBase + recipeId + ("?" + id) + key;
    DetailIdText(cred.appId);
  }

  lemma DetailIdText(appId: string)
    ensures "?" + ("_app_id=" + appId) == "?_app_id=" + appId
  {
    assert "?" + "_app_id=" == "?_app_id=";
  }

}
