/**
 * The common list-query parameters (`QueryBaseDto`): their defaults and the bounds the
 * class-validator decorators place on them. Query-string numbers are first converted with
 * `Number(...)` (`@Type(() => Number)`); an absent parameter keeps its default, and an absent
 * `search` stays absent.
 */
module QueryBase {
  import opened Options
  import opened Errors
  import opened Outcomes

  const DefaultPage: int := 1
  const DefaultLimit: int := 10
  const MaxLimit: int := 100
  const DefaultSortBy: string := "createdAt"
  const DefaultSortOrder: string := "asc"

  /** A JavaScript number: finite, or NaN / an infinity. */
  datatype JsNumber = Finite(value: real) | NonFinite

  /** The raw parameters; `None` for one that is not given. */
  datatype QueryBaseInput = QueryBaseInput(
    page: Option<JsNumber>,
    limit: Option<JsNumber>,
    sortBy: Option<string>,
    sortOrder: Option<string>,
    search: Option<string>)

  /** The parameters after defaults and validation. */
  datatype QueryBaseDto = QueryBaseDto(
    page: int,
    limit: int,
    sortBy: string,
    sortOrder: string,
    search: Option<string>)

  /** `@IsInt()`. */
  predicate IsInt(n: JsNumber)
  {
    n.Finite? && n.value.Floor as real == n.value
  }

  /** `@IsInt() @Min(1)` on `page`. */
  predicate PageOk(n: JsNumber)
  {
    IsInt(n) && n.value >= 1.0
  }

  /** `@IsInt() @Min(1) @Max(100)` on `limit`. */
  predicate LimitOk(n: JsNumber)
  {
    IsInt(n) && 1.0 <= n.value <= MaxLimit as real
  }

  /** `@IsIn(['asc', 'desc'])` on `sortOrder`. */
  predicate SortOrderOk(s: string)
  {
    s == "asc" || s == "desc"
  }

  /** `@MinLength(1)` on `search`. */
  predicate SearchOk(s: string)
  {
    |s| >= 1
  }

  /** Every parameter that is given satisfies its decorators (`@IsOptional` skips absent ones). */
  predicate InputOk(q: QueryBaseInput)
  {
    && (q.page.Some? ==> PageOk(q.page.value))
    && (q.limit.Some? ==> LimitOk(q.limit.value))
    && (q.sortOrder.Some? ==> SortOrderOk(q.sortOrder.value))
    && (q.search.Some? ==> SearchOk(q.search.value))
  }

  /** What every validated query satisfies. */
  predicate InBounds(d: QueryBaseDto)
  {
    && d.page >= 1
    && 1 <= d.limit <= MaxLimit
    && SortOrderOk(d.sortOrder)
    && (d.search.Some? ==> |d.search.value| >= 1)
  }

  /** The message of the first violated decorator, in declaration order. */
  function FirstViolation(q: QueryBaseInput): string
  {
    if q.page.Some? && !IsInt(q.page.value) then "page butun son bo'lishi kerak!"
    else if q.page.Some? && !PageOk(q.page.value) then "page kamida 1 bo'lishi kerak"
    else if q.limit.Some? && !IsInt(q.limit.value) then "Limit butun son bo\U{02BB}lishi kerak"
    else if q.limit.Some? && q.limit.value.value < 1.0 then "Limit kamida 1 bo\U{02BB}lishi kerak"
    else if q.limit.Some? && !LimitOk(q.limit.value) then "Limit ko\U{02BB}pi bilan 100 bo\U{02BB}lishi kerak"
    else if q.sortOrder.Some? && !SortOrderOk(q.sortOrder.value) then "Tartiblash yo'nalishi 'asc' yoki 'desc' bo'lishi kerak"
    else "search must be longer than or equal to 1 characters"
  }

  /**
   * Defaults, then validation. The result is a query exactly when every given parameter obeys
   * its rule; it then lies within the bounds, and each absent parameter has its default.
   */
  function Validate(q: QueryBaseInput): (r: Outcome<QueryBaseDto>)
    ensures r.Ok? <==> InputOk(q)
    ensures r.Err? ==> r.kind == BadRequest
    ensures r.Ok? ==> InBounds(r.value)
    ensures r.Ok? && q.page.None? ==> r.value.page == DefaultPage
    ensures r.Ok? && q.page.Some? ==> r.value.page as real == q.page.value.value
    ensures r.Ok? && q.limit.None? ==> r.value.limit == DefaultLimit
    ensures r.Ok? && q.limit.Some? ==> r.value.limit as real == q.limit.value.value
    ensures r.Ok? ==> r.value.sortBy == q.sortBy.GetOr(DefaultSortBy)
    ensures r.Ok? ==> r.value.sortOrder == q.sortOrder.GetOr(DefaultSortOrder)
    ensures r.Ok? ==> r.value.search == q.search
  {
    if !InputOk(q) then
      Err(BadRequest, FirstViolation(q))
    else
      Ok(QueryBaseDto(
        if q.page.Some? then q.page.value.value.Floor else DefaultPage,
        if q.limit.Some? then q.limit.value.value.Floor else DefaultLimit,
        q.sortBy.GetOr(DefaultSortBy),
        q.sortOrder.GetOr(DefaultSortOrder),
        q.search))
  }

  /** With no parameters at all: page 1, ten per page, by `createdAt`, ascending, no search. */
  lemma DefaultQuery()
    ensures Validate(QueryBaseInput(None, None, None, None, None))
         == Ok(QueryBaseDto(1, 10, "createdAt", "asc", None))
  {
  }

  /** A fractional page, a page below 1, a limit above 100, an unknown order or an empty search is refused. */
  lemma RejectedQueries()
    ensures Validate(QueryBaseInput(Some(Finite(1.5)), None, None, None, None)).Fails(BadRequest)
    ensures Validate(QueryBaseInput(Some(Finite(0.0)), None, None, None, None)).Fails(BadRequest)
    ensures Validate(QueryBaseInput(None, Some(Finite(101.0)), None, None, None)).Fails(BadRequest)
    ensures Validate(QueryBaseInput(None, None, None, Some("up"), None)).Fails(BadRequest)
    ensures Validate(QueryBaseInput(None, None, None, None, Some(""))).Fails(BadRequest)
  {
    assert !IsInt(Finite(1.5)) by { assert (1.5).Floor == 1; }
  }
}
