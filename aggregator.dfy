/**
 * The aggregator: one provider request per requested course, joined into a
 * result with one entry per course. The provider is a function from a URL to
 * what the request for it comes back with.
 */
module Aggregator {
  import opened Wrappers
  import opened Decimal
  import opened QueryString
  import opened QueryBuilder

  /**
   * How a provider request ends: the response stream's error event, or a
   * parsed body whose `matches` may be missing.
   */
  datatype Response<M> = ResponseError(message: string) | Body(matches: Option<seq<M>>)

  datatype Failure =
    | ResponseFailed(message: string)
      /** Reading `.matches` of an undefined course result throws. */
    | MatchesMissing

  /** A settled promise. */
  datatype Settled<T> = Resolved(value: T) | Rejected(error: Failure)

  datatype CourseRecipes<M> = CourseRecipes(breakfastRecipes: seq<M>, lunchRecipes: seq<M>, dinnerRecipes: seq<M>)

  function RecipesOf<M>(r: CourseRecipes<M>, c: Course): seq<M> {
    match c
    case Breakfast => r.breakfastRecipes
    case Lunch => r.lunchRecipes
    case Dinner => r.dinnerRecipes
  }

  /** `queryYummly`: an empty query resolves to no matches without a request. */
  function QueryProvider<M>(query: string, fetch: string -> Response<M>): (r: Settled<Option<seq<M>>>)
    ensures query == "" ==> r == Resolved(Some([]))
    ensures query != "" ==> (r.Rejected? <==> fetch(query).ResponseError?)
    ensures query != "" && r.Resolved? ==> fetch(query) == Body(r.value)
  {
    if query == "" then Resolved(Some([]))
    else
      match fetch(query)
      case ResponseError(message) => Rejected(ResponseFailed(message))
      case Body(matches) => Resolved(matches)
  }

  /** `results[i] || results[i].matches`: an array is truthy and kept; undefined throws. */
  function CourseResult<M>(result: Option<seq<M>>): (r: Settled<seq<M>>)
    ensures r.Resolved? <==> result.Some?
    ensures r.Resolved? ==> r.value == result.value
    ensures r.Rejected? ==> r.error == MatchesMissing
  {
    match result
    case Some(matches) => Resolved(matches)
    case None => Rejected(MatchesMissing)
  }

  /**
   * `Promise.all` over the three course requests, then the positional
   * assembly. A rejected request rejects the whole; which of several
   * rejections wins depends on timing, and the model takes the first in
   * course order.
   */
  function Join<M>(b: Settled<Option<seq<M>>>, l: Settled<Option<seq<M>>>, d: Settled<Option<seq<M>>>): (r: Settled<CourseRecipes<M>>)
    ensures r.Resolved? <==>
      b.Resolved? && b.value.Some? && l.Resolved? && l.value.Some? && d.Resolved? && d.value.Some?
    ensures r.Resolved? ==> r.value == CourseRecipes(b.value.value, l.value.value, d.value.value)
    ensures b.Rejected? ==> r == Rejected(b.error)
    ensures r.Rejected? ==>
      || (b.Rejected? && r.error == b.error)
      || (l.Rejected? && r.error == l.error)
      || (d.Rejected? && r.error == d.error)
      || r.error == MatchesMissing
  {
    if b.Rejected? then Rejected(b.error)
    else if l.Rejected? then Rejected(l.error)
    else if d.Rejected? then Rejected(d.error)
    else
      match (CourseResult(b.value), CourseResult(l.value), CourseResult(d.value))
      case (Resolved(breakfasts), Resolved(lunches), Resolved(dinners)) =>
        Resolved(CourseRecipes(breakfasts, lunches, dinners))
      case (Rejected(e), _, _) => Rejected(e)
      case (_, Rejected(e), _) => Rejected(e)
      case (_, _, Rejected(e)) => Rejected(e)
  }

  /** The settled request for one course's query. */
  function CourseOutcome<M>(qs: Queries, fetch: string -> Response<M>, c: Course): Settled<Option<seq<M>>> {
    QueryProvider(QueryOf(qs, c), fetch)
  }

  /** The URLs requested for a set of queries: the non-empty ones, in course order. */
  function Requests(qs: Queries): (urls: seq<string>)
    ensures forall c :: QueryOf(qs, c) != "" <==> QueryOf(qs, c) in urls
    ensures forall u :: u in urls ==> u != ""
  {
    (if qs.breakfastQuery != "" then [qs.breakfastQuery] else [])
      + (if qs.lunchQuery != "" then [qs.lunchQuery] else [])
      + (if qs.dinnerQuery != "" then [qs.dinnerQuery] else [])
  }

  /**
   * Requests the three queries and joins them: resolves to the three courses'
   * matches exactly when every request succeeds with a `matches` field, and an
   * empty query contributes no recipes.
   */
  function Aggregate<M>(qs: Queries, fetch: string -> Response<M>): (r: Settled<CourseRecipes<M>>)
    ensures r.Resolved? <==>
      forall c :: CourseOutcome(qs, fetch, c).Resolved? && CourseOutcome(qs, fetch, c).value.Some?
    ensures r.Resolved? ==>
      forall c :: RecipesOf(r.value, c) == CourseOutcome(qs, fetch, c).value.value
    ensures r.Resolved? ==>
      forall c :: QueryOf(qs, c) == "" ==> RecipesOf(r.value, c) == []
    ensures r.Resolved? ==>
      forall c :: QueryOf(qs, c) != "" ==> fetch(QueryOf(qs, c)) == Body(Some(RecipesOf(r.value, c)))
    ensures forall c :: (QueryOf(qs, c) != "" && fetch(QueryOf(qs, c)).ResponseError?) ==> r.Rejected?
    ensures r.Rejected? && r.error.ResponseFailed? ==>
      exists c :: QueryOf(qs, c) != "" && fetch(QueryOf(qs, c)) == ResponseError(r.error.message)
  {
    Join(CourseOutcome(qs, fetch, Breakfast), CourseOutcome(qs, fetch, Lunch), CourseOutcome(qs, fetch, Dinner))
  }

  /**
   * `createRecipes`: writes the queries and aggregates them; a course whose
   * count is absent, 0 or -10 is never requested and holds no recipes.
   */
  function CreateRecipes<M>(cred: Credentials, lib: Library, model: QueryModel, fetch: string -> Response<M>): (r: Settled<CourseRecipes<M>>)
    ensures forall c :: r.Resolved? && (CountOf(model, c) == None || CountOf(model, c) == Some(0) || CountOf(model, c) == Some(-10))
                        ==> RecipesOf(r.value, c) == []
    ensures forall c :: r.Resolved? && CountOf(model, c) != None && CountOf(model, c) != Some(0) && CountOf(model, c) != Some(-10)
                        ==> fetch(QueryOf(QueriesFor(cred, lib, model), c)) == Body(Some(RecipesOf(r.value, c)))
  {
    var qs := QueriesFor(cred, lib, model);
    SkippedAll(cred, lib, model);
    Aggregate(qs, fetch)
  }

  lemma SkippedAll(cred: Credentials, lib: Library, model: QueryModel)
    ensures forall c ::
      QueryOf(QueriesFor(cred, lib, model), c) == ""
      <==> CountOf(model, c) == None || CountOf(model, c) == Some(0) || CountOf(model, c) == Some(-10)
  {
    forall c {
      SkippedIffFalsy(cred, lib, model, c);
    }
  }

  /** Only the URLs actually requested matter: no request is made for a skipped course. */
  lemma OnlyRequestsMatter<M>(cred: Credentials, lib: Library, model: QueryModel, f: string -> Response<M>, g: string -> Response<M>)
    requires forall u :: u in Requests(QueriesFor(cred, lib, model)) ==> f(u) == g(u)
    ensures CreateRecipes(cred, lib, model, f) == CreateRecipes(cred, lib, model, g)
  {
    var qs := QueriesFor(cred, lib, model);
    forall c
      ensures CourseOutcome(qs, f, c) == CourseOutcome(qs, g, c)
    {
      if QueryOf(qs, c) != "" {
        assert QueryOf(qs, c) in Requests(qs);
      }
    }
  }

  /** With every requested course succeeding, each course holds its own request's matches. */
  lemma AllSucceed<M>(cred: Credentials, lib: Library, model: QueryModel, fetch: string -> Response<M>, found: string -> seq<M>)
    requires forall u :: u != "" ==> fetch(u) == Body(Some(found(u)))
    ensures var qs := QueriesFor(cred, lib, model);
            var expected := CourseRecipes(
              if qs.breakfastQuery == "" then [] else found(qs.breakfastQuery),
              if qs.lunchQuery == "" then [] else found(qs.lunchQuery),
              if qs.dinnerQuery == "" then [] else found(qs.dinnerQuery));
            CreateRecipes(cred, lib, model, fetch) == Resolved(expected)
  {
  }

  /**
   * Five breakfasts, no lunches, dinners unset: only the breakfast query is
   * requested, and lunch and dinner resolve to no recipes.
   */
  lemma PeanutRecipes<M>(cred: Credentials, lib: Library, fetch: string -> Response<M>, found: seq<M>)
    requires forall u :: u != "" ==> fetch(u) == Body(Some(found))
    ensures CreateRecipes(cred, lib, PeanutModel, fetch) == Resolved(CourseRecipes(found, [], []))
  {
    PeanutQueries(cred, lib);
    AllSucceed(cred, lib, PeanutModel, fetch, u => found);
  }
}
