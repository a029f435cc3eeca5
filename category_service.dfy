/**
 * The category catalogue of `CategoryService`: a table from id to category in which names are
 * unique, with create, update and remove changing it in place, and a paginated, filtered and
 * sorted listing. The database's own work (evaluating the `where` clause, ordering, counting)
 * is stated as functions over the rows; the order the database lists rows in is a parameter.
 */
module CategoryService {
  import opened Options
  import opened Errors
  import opened Outcomes
  import opened Text
  import opened Arith
  import QueryBase

  datatype Category = Category(id: string, name: string, description: string, image: string)

  datatype CreateCategoryDto = CreateCategoryDto(name: string, description: string, image: string)

  /** A partial `CreateCategoryDto`: each field may be left out of the patch. */
  datatype UpdateCategoryDto = UpdateCategoryDto(name: Option<string>, description: Option<string>, image: Option<string>)

  /** The category table, keyed by id. */
  type Table = map<string, Category>

  /** Each row sits under its own id, and no two rows share a name (the unique index on `name`). */
  ghost predicate ValidTable(t: Table)
  {
    && (forall id :: id in t ==> t[id].id == id)
    && (forall a, b :: a in t && b in t && a != b ==> t[a].name != t[b].name)
  }

  predicate NameTaken(t: Table, name: string)
  {
    exists id :: id in t && t[id].name == name
  }

  /** `findFirst({ where: { name, id: { not: id } } })` finds a row. */
  predicate NameTakenByOther(t: Table, name: string, id: string)
  {
    exists k :: k in t && k != id && t[k].name == name
  }

  /** An outcome together with the table afterwards. */
  datatype Step<T> = Step(outcome: Outcome<T>, table: Table)

  const NameExistsMessage: string := "Bu nomdagi kategoriya allaqachon mavjud!"
  const CreateFailedPrefix: string := "Kategoriya yaratishda xatolik: "
  const UniqueViolationMessage: string := "Nom bo'yicha unikalik buzildi (yangilashda)"
  const ReferencedMessage: string :=
    "Bu kategoriya bilan bog'liq yozuvlar mavjud. Avval ularni o'chiring yoki o'zgartiring."

  function NotFoundMessage(id: string): string
  {
    "ID='" + id + "' bo'lgan kategoriya topilmadi"
  }

  function RenameConflictMessage(name: string): string
  {
    "'" + name + "' nomli kategoriya allaqachon mavjud!"
  }

  /** `create`; `newId` is the id the database assigns to the new row. */
  function CreateOutcome(t: Table, dto: CreateCategoryDto, newId: string): (r: Step<Category>)
    ensures r.outcome.Fails(Conflict) <==> NameTaken(t, dto.name)
    ensures r.outcome.Fails(Conflict) ==> r.outcome.message == NameExistsMessage
    ensures r.outcome.Ok? <==> !NameTaken(t, dto.name) && newId !in t
    ensures r.outcome.Ok? ==>
      && newId !in t
      && r.outcome.value == Category(newId, dto.name, dto.description, dto.image)
      && r.table == t[newId := r.outcome.value]
    ensures r.outcome.Err? && !NameTaken(t, dto.name) ==>
      r.outcome.kind == BadRequest && r.outcome.message == CreateFailedPrefix
    ensures !r.outcome.Ok? ==> r.table == t
  {
    if NameTaken(t, dto.name) then
      Step(Err(Conflict, NameExistsMessage), t)
    else if newId in t then
      Step(Err(BadRequest, CreateFailedPrefix), t)
    else
      var c := Category(newId, dto.name, dto.description, dto.image);
      Step(Ok(c), t[newId := c])
  }

  /** `findOne`. */
  function FindOneOutcome(t: Table, id: string): (r: Outcome<Category>)
    ensures r.Ok? <==> id in t
    ensures r.Ok? ==> r.value == t[id]
    ensures r.Err? ==> r == Err(NotFound, NotFoundMessage(id))
  {
    if id in t then Ok(t[id]) else Err(NotFound, NotFoundMessage(id))
  }

  /** The row after a patch: each field given in the patch replaces the stored one. */
  function ApplyPatch(c: Category, p: UpdateCategoryDto): (u: Category)
    ensures u.id == c.id
    ensures p.name.None? ==> u.name == c.name
    ensures p.name.Some? ==> u.name == p.name.value
    ensures p.description.None? ==> u.description == c.description
    ensures p.description.Some? ==> u.description == p.description.value
    ensures p.image.None? ==> u.image == c.image
    ensures p.image.Some? ==> u.image == p.image.value
  {
    Category(c.id, p.name.GetOr(c.name), p.description.GetOr(c.description), p.image.GetOr(c.image))
  }

  /**
   * `update`. A non-empty new name held by another row is refused up front; an empty one skips that
   * check (it is falsy) and is refused by the unique index when written.
   */
  function UpdateOutcome(t: Table, id: string, p: UpdateCategoryDto): (r: Step<Category>)
    ensures r.outcome.Fails(NotFound) <==> id !in t
    ensures r.outcome.Fails(NotFound) ==> r.outcome.message == NotFoundMessage(id)
    ensures r.outcome.Fails(Conflict) <==> id in t && p.name.Some? && NameTakenByOther(t, p.name.value, id)
    ensures r.outcome.Fails(Conflict) && p.name.value != "" ==>
      r.outcome.message == RenameConflictMessage(p.name.value)
    ensures r.outcome.Fails(Conflict) && p.name.value == "" ==> r.outcome.message == UniqueViolationMessage
    ensures r.outcome.Ok? <==> id in t && !(p.name.Some? && NameTakenByOther(t, p.name.value, id))
    ensures r.outcome.Ok? ==> r.outcome.value == ApplyPatch(t[id], p) && r.table == t[id := r.outcome.value]
    ensures !r.outcome.Ok? ==> r.table == t
  {
    if id !in t then
      Step(Err(NotFound, NotFoundMessage(id)), t)
    else if p.name.Some? && p.name.value != "" && NameTakenByOther(t, p.name.value, id) then
      Step(Err(Conflict, RenameConflictMessage(p.name.value)), t)
    else if p.name.Some? && NameTakenByOther(t, p.name.value, id) then
      Step(Err(Conflict, UniqueViolationMessage), t)
    else
      var u := ApplyPatch(t[id], p);
      Step(Ok(u), t[id := u])
  }

  /** `remove`; `referenced` says whether other rows still point at the category (a foreign-key failure). */
  function RemoveOutcome(t: Table, id: string, referenced: bool): (r: Step<Category>)
    ensures r.outcome.Fails(NotFound) <==> id !in t
    ensures r.outcome.Fails(Conflict) <==> id in t && referenced
    ensures r.outcome.Ok? <==> id in t && !referenced
    ensures r.outcome.Ok? ==> r.outcome.value == t[id] && r.table == t - {id}
    ensures !r.outcome.Ok? ==> r.table == t
  {
    if id !in t then
      Step(Err(NotFound, NotFoundMessage(id)), t)
    else if referenced then
      Step(Err(Conflict, ReferencedMessage), t)
    else
      Step(Ok(t[id]), t - {id})
  }

  // ---------------------------------------------------------------------------------------------
  // Listing

  const DefaultPage: int := 1
  const DefaultLimit: int := 10
  const DefaultSortBy: string := "name"
  const DefaultSortOrder: string := "asc"

  /** The query of `findAll`: the common list parameters and `filterByName`. */
  datatype CategoryQuery = CategoryQuery(
    page: Option<int>,
    limit: Option<int>,
    sortBy: Option<string>,
    sortOrder: Option<string>,
    search: Option<string>,
    filterByName: Option<string>)

  /** The bounds the query DTO declares for the parameters that are given. */
  predicate QueryInBounds(q: CategoryQuery)
  {
    && (q.page.Some? ==> q.page.value >= 1)
    && (q.limit.Some? ==> 1 <= q.limit.value <= QueryBase.MaxLimit)
    && (q.sortOrder.Some? ==> QueryBase.SortOrderOk(q.sortOrder.value))
  }

  /** The list query a validated `QueryBaseDto` and a `filterByName` make. */
  function FromBase(d: QueryBase.QueryBaseDto, filterByName: Option<string>): CategoryQuery
  {
    CategoryQuery(Some(d.page), Some(d.limit), Some(d.sortBy), Some(d.sortOrder), d.search, filterByName)
  }

  /** The sort-field whitelist: `name` or `description`, anything else falls back to `name`. */
  function SortField(sortBy: string): (f: string)
    ensures f == "name" || f == "description"
    ensures (sortBy == "name" || sortBy == "description") ==> f == sortBy
    ensures !(sortBy == "name" || sortBy == "description") ==> f == "name"
  {
    if sortBy == "name" || sortBy == "description" then sortBy else "name"
  }

  function Key(c: Category, field: string): string
  {
    if field == "description" then c.description else c.name
  }

  /** `a` may come before `b` when ordering by `field` in direction `order`. */
  predicate InOrder(a: Category, b: Category, field: string, order: string)
  {
    if order == "desc" then LexLe(Key(b, field), Key(a, field)) else LexLe(Key(a, field), Key(b, field))
  }

  predicate SortedBy(rows: seq<Category>, field: string, order: string)
  {
    forall i, j :: 0 <= i < j < |rows| ==> InOrder(rows[i], rows[j], field, order)
  }

  predicate DistinctIds(rows: seq<Category>)
  {
    forall i, j :: 0 <= i < j < |rows| ==> rows[i].id != rows[j].id
  }

  /** `rows` lists every row of `t` exactly once. */
  predicate ListsTable(rows: seq<Category>, t: Table)
  {
    && DistinctIds(rows)
    && (forall i :: 0 <= i < |rows| ==> rows[i].id in t && t[rows[i].id] == rows[i])
    && (forall id :: id in t ==> t[id] in rows)
  }

  /** A string query parameter that is present and non-empty (JavaScript truthiness). */
  predicate Truthy(s: Option<string>)
  {
    s.Some? && s.value != ""
  }

  /** The filter `findAll` means: `search` in name or description, and `filterByName` in name. */
  predicate Qualifies(c: Category, search: Option<string>, filterByName: Option<string>)
  {
    && (Truthy(search) ==> ContainsInsensitive(c.name, search.value) || ContainsInsensitive(c.description, search.value))
    && (Truthy(filterByName) ==> ContainsInsensitive(c.name, filterByName.value))
  }

  /** One element of the `AND` list of the `where` clause. */
  datatype Condition =
    | NameOrDescriptionContains(term: string)
    | NameContains(term: string)

  predicate Holds(cond: Condition, c: Category)
  {
    match cond
    case NameOrDescriptionContains(term) => ContainsInsensitive(c.name, term) || ContainsInsensitive(c.description, term)
    case NameContains(term) => ContainsInsensitive(c.name, term)
  }

  /** `{ AND: conds }`, or `{}` when the list is empty. */
  predicate SatisfiesAll(conds: seq<Condition>, c: Category)
  {
    forall i :: 0 <= i < |conds| ==> Holds(conds[i], c)
  }

  /** The rows that pass `keep`, in their original order. */
  function Filter(rows: seq<Category>, keep: Category -> bool): (out: seq<Category>)
    ensures |out| <= |rows|
    ensures forall c :: c in out <==> c in rows && keep(c)
  {
    if rows == [] then []
    else (if keep(rows[0]) then [rows[0]] else []) + Filter(rows[1..], keep)
  }

  /** The rows of a listing that qualify under the query's filters. */
  function Matching(rows: seq<Category>, q: CategoryQuery): seq<Category>
  {
    Filter(rows, c => Qualifies(c, q.search, q.filterByName))
  }

  /** `Math.ceil(n / d)` for a whole `n` and a positive whole `d`. */
  function CeilDiv(n: nat, d: nat): (r: nat)
    requires d >= 1
    ensures n == 0 ==> r == 0
    ensures d * r >= n
    ensures n > 0 ==> d * (r - 1) < n
  {
    var r := (n + d - 1) / d;
    assert d * r + (n + d - 1) % d == n + d - 1;
    r
  }

  /** `skip = (page - 1) * limit`: the number of rows before the page. */
  function Skip(page: int, limit: int): (skip: nat)
    requires page >= 1 && limit >= 1
  {
    MulAtLeastZero(limit, page - 1);
    limit * (page - 1)
  }

  /** The slice `skip`, `take = limit` of `rows`. */
  function PageOf(rows: seq<Category>, page: int, limit: int): (data: seq<Category>)
    requires page >= 1 && limit >= 1
    ensures |data| <= limit
    ensures |data| == 0 <==> Skip(page, limit) >= |rows|
    ensures forall k :: 0 <= k < |data| ==> Skip(page, limit) + k < |rows| && data[k] == rows[Skip(page, limit) + k]
  {
    var skip := Skip(page, limit);
    if skip >= |rows| then [] else rows[skip..if skip + limit <= |rows| then skip + limit else |rows|]
  }

  datatype Meta = Meta(totalItems: nat, itemCount: nat, itemsPerPage: int, totalPages: nat, currentPage: int)
  datatype Page = Page(data: seq<Category>, meta: Meta)

  /** The conditions `findAll` pushes: each is added only when its parameter is truthy. */
  method BuildWhere(search: Option<string>, filterByName: Option<string>) returns (conds: seq<Condition>)
    ensures |conds| <= 2
    ensures conds == [] <==> !Truthy(search) && !Truthy(filterByName)
    ensures forall c :: SatisfiesAll(conds, c) <==> Qualifies(c, search, filterByName)
  {
    conds := [];
    if search.Some? && search.value != "" {
      conds := conds + [NameOrDescriptionContains(search.value)];
    }
    if filterByName.Some? && filterByName.value != "" {
      conds := conds + [NameContains(filterByName.value)];
    }
    forall c: Category
      ensures SatisfiesAll(conds, c) <==> Qualifies(c, search, filterByName)
    {
      if SatisfiesAll(conds, c) && Truthy(search) {
        assert Holds(conds[0], c);
      }
      if SatisfiesAll(conds, c) && Truthy(filterByName) {
        assert Holds(conds[|conds| - 1], c);
      }
    }
  }

  // ---------------------------------------------------------------------------------------------
  // The service object

  class CategoryService {
    var categories: Table

    ghost predicate Valid()
      reads this
    {
      ValidTable(categories)
    }

    constructor ()
      ensures Valid() && categories == map[]
    {
      categories := map[];
    }

    method Create(dto: CreateCategoryDto, newId: string) returns (r: Outcome<Category>)
      requires Valid()
      modifies this
      ensures Valid()
      ensures Step(r, categories) == CreateOutcome(old(categories), dto, newId)
    {
      if NameTaken(categories, dto.name) {
        return Err(Conflict, NameExistsMessage);
      }
      if newId in categories {
        return Err(BadRequest, CreateFailedPrefix);
      }
      var c := Category(newId, dto.name, dto.description, dto.image);
      CreateKeepsTableValid(categories, dto, newId);
      categories := categories[newId := c];
      r := Ok(c);
    }

    /**
     * `findAll`. `ordered` is the database's listing of the whole table under the requested
     * order; the page is its qualifying rows from `skip` on, at most `limit` of them.
     */
    method FindAll(q: CategoryQuery, ordered: seq<Category>) returns (r: Page)
      requires QueryInBounds(q)
      requires ListsTable(ordered, categories)
      requires SortedBy(ordered, SortField(q.sortBy.GetOr(DefaultSortBy)), q.sortOrder.GetOr(DefaultSortOrder))
      ensures r.data == PageOf(Matching(ordered, q), q.page.GetOr(DefaultPage), q.limit.GetOr(DefaultLimit))
      ensures |r.data| <= q.limit.GetOr(DefaultLimit)
      ensures forall c :: c in r.data ==> c.id in categories && categories[c.id] == c && Qualifies(c, q.search, q.filterByName)
      ensures SortedBy(r.data, SortField(q.sortBy.GetOr(DefaultSortBy)), q.sortOrder.GetOr(DefaultSortOrder))
      // totalItems counts each qualifying row of the table once
      ensures DistinctIds(Matching(ordered, q))
      ensures forall id :: id in categories && Qualifies(categories[id], q.search, q.filterByName) ==>
                categories[id] in Matching(ordered, q)
      ensures r.meta.totalItems == |Matching(ordered, q)|
      ensures r.meta.itemCount == |r.data|
      ensures r.meta.itemsPerPage == q.limit.GetOr(DefaultLimit)
      ensures r.meta.currentPage == q.page.GetOr(DefaultPage)
      ensures r.meta.totalPages == CeilDiv(|Matching(ordered, q)|, q.limit.GetOr(DefaultLimit))
    {
      var page := q.page.GetOr(DefaultPage);
      var limit := q.limit.GetOr(DefaultLimit);
      var field := SortField(q.sortBy.GetOr(DefaultSortBy));
      var order := q.sortOrder.GetOr(DefaultSortOrder);
      var conds := BuildWhere(q.search, q.filterByName);
      var rows := Filter(ordered, c => SatisfiesAll(conds, c));
      FilterSameTest(ordered, c => SatisfiesAll(conds, c), c => Qualifies(c, q.search, q.filterByName));
      FilterKeepsSorted(ordered, c => SatisfiesAll(conds, c), field, order);
      FilterKeepsDistinct(ordered, c => SatisfiesAll(conds, c));
      var data := PageOf(rows, page, limit);
      SliceKeepsSorted(rows, page, limit, field, order);
      forall c | c in data
        ensures c.id in categories && categories[c.id] == c && Qualifies(c, q.search, q.filterByName)
      {
        var k :| 0 <= k < |data| && data[k] == c;
        assert c in rows;
        var i :| 0 <= i < |ordered| && ordered[i] == c;
      }
      r := Page(data, Meta(|rows|, |data|, limit, CeilDiv(|rows|, limit), page));
    }

    /** Reads the table and changes nothing. */
    method FindOne(id: string) returns (r: Outcome<Category>)
      ensures r == FindOneOutcome(categories, id)
    {
      if id !in categories {
        return Err(NotFound, NotFoundMessage(id));
      }
      r := Ok(categories[id]);
    }

    method Update(id: string, dto: UpdateCategoryDto) returns (r: Outcome<Category>)
      requires Valid()
      modifies this
      ensures Valid()
      ensures Step(r, categories) == UpdateOutcome(old(categories), id, dto)
    {
      var found := FindOne(id);
      if found.Err? {
        return found;
      }
      if dto.name.Some? && dto.name.value != "" && NameTakenByOther(categories, dto.name.value, id) {
        return Err(Conflict, RenameConflictMessage(dto.name.value));
      }
      if dto.name.Some? && NameTakenByOther(categories, dto.name.value, id) {
        return Err(Conflict, UniqueViolationMessage);
      }
      var updated := ApplyPatch(categories[id], dto);
      UpdateKeepsTableValid(categories, id, dto);
      categories := categories[id := updated];
      r := Ok(updated);
    }

    method Remove(id: string, referenced: bool) returns (r: Outcome<Category>)
      requires Valid()
      modifies this
      ensures Valid()
      ensures Step(r, categories) == RemoveOutcome(old(categories), id, referenced)
    {
      var found := FindOne(id);
      if found.Err? {
        return found;
      }
      if referenced {
        return Err(Conflict, ReferencedMessage);
      }
      categories := categories - {id};
      r := found;
    }
  }

  // ---------------------------------------------------------------------------------------------
  // Lemmas about the listing

  /** Filtering with two tests that agree everywhere gives the same rows. */
  lemma {:induction false} FilterSameTest(rows: seq<Category>, p: Category -> bool, q: Category -> bool)
    requires forall c :: p(c) == q(c)
    ensures Filter(rows, p) == Filter(rows, q)
  {
    if rows != [] {
      FilterSameTest(rows[1..], p, q);
    }
  }

  /** Filtering keeps the order of a sorted listing. */
  lemma {:induction false} FilterKeepsSorted(rows: seq<Category>, keep: Category -> bool, field: string, order: string)
    requires SortedBy(rows, field, order)
    ensures SortedBy(Filter(rows, keep), field, order)
  {
    if rows != [] {
      var tail := rows[1..];
      assert SortedBy(tail, field, order) by {
        forall i, j | 0 <= i < j < |tail| ensures InOrder(tail[i], tail[j], field, order) {
          assert tail[i] == rows[i + 1] && tail[j] == rows[j + 1];
        }
      }
      FilterKeepsSorted(tail, keep, field, order);
      var rest := Filter(tail, keep);
      forall x | x in rest ensures InOrder(rows[0], x, field, order) {
        var k :| 0 <= k < |tail| && tail[k] == x;
        assert x == rows[k + 1];
      }
      var out := Filter(rows, keep);
      if keep(rows[0]) {
        assert out == [rows[0]] + rest;
        forall i, j | 0 <= i < j < |out| ensures InOrder(out[i], out[j], field, order) {
          if i == 0 {
            assert out[j] == rest[j - 1] && out[j] in rest;
          } else {
            assert out[i] == rest[i - 1] && out[j] == rest[j - 1];
          }
        }
      } else {
        assert out == rest;
      }
    }
  }

  /** Filtering a listing without repeated ids gives one without repeated ids. */
  lemma {:induction false} FilterKeepsDistinct(rows: seq<Category>, keep: Category -> bool)
    requires DistinctIds(rows)
    ensures DistinctIds(Filter(rows, keep))
  {
    if rows != [] {
      var tail := rows[1..];
      assert DistinctIds(tail) by {
        forall i, j | 0 <= i < j < |tail| ensures tail[i].id != tail[j].id {
          assert tail[i] == rows[i + 1] && tail[j] == rows[j + 1];
        }
      }
      FilterKeepsDistinct(tail, keep);
      var rest := Filter(tail, keep);
      forall x | x in rest ensures x.id != rows[0].id {
        var k :| 0 <= k < |tail| && tail[k] == x;
        assert x == rows[k + 1];
      }
      var out := Filter(rows, keep);
      if keep(rows[0]) {
        assert out == [rows[0]] + rest;
        forall i, j | 0 <= i < j < |out| ensures out[i].id != out[j].id {
          if i == 0 {
            assert out[j] == rest[j - 1] && out[j] in rest;
          } else {
            assert out[i] == rest[i - 1] && out[j] == rest[j - 1];
          }
        }
      } else {
        assert out == rest;
      }
    }
  }

  /** A page of a sorted listing is sorted. */
  lemma SliceKeepsSorted(rows: seq<Category>, page: int, limit: int, field: string, order: string)
    requires page >= 1 && limit >= 1
    requires SortedBy(rows, field, order)
    ensures SortedBy(PageOf(rows, page, limit), field, order)
  {
    var data := PageOf(rows, page, limit);
    forall i, j | 0 <= i < j < |data| ensures InOrder(data[i], data[j], field, order) {
      assert data[i] == rows[Skip(page, limit) + i] && data[j] == rows[Skip(page, limit) + j];
    }
  }

  /**
   * Every qualifying row is on exactly the page its position says: row `j` of the filtered listing
   * is item `j % limit` of page `j / limit + 1`, and that page is within `totalPages`.
   */
  lemma {:induction false} PageCoverage(rows: seq<Category>, limit: int, j: nat)
    requires limit >= 1 && j < |rows|
    ensures var p := j / limit + 1;
            && 1 <= p <= CeilDiv(|rows|, limit)
            && j % limit < |PageOf(rows, p, limit)|
            && PageOf(rows, p, limit)[j % limit] == rows[j]
  {
    var p := j / limit + 1;
    var n := |rows|;
    var tp := CeilDiv(n, limit);
    assert Skip(p, limit) + j % limit == j;
    var data := PageOf(rows, p, limit);
    assert Skip(p, limit) <= j < |rows|;
    if p > tp {
      assert p - 1 >= tp;
      MulMonotone(tp, p - 1, limit);
      assert false;
    }
  }

  /** A page past `totalPages` is empty; every page from 1 to `totalPages` holds at least one row. */
  lemma {:induction false} PagesWithinTotal(rows: seq<Category>, page: int, limit: int)
    requires page >= 1 && limit >= 1
    ensures |PageOf(rows, page, limit)| > 0 <==> page <= CeilDiv(|rows|, limit)
  {
    var n := |rows|;
    var tp := CeilDiv(n, limit);
    var skip := Skip(page, limit);
    assert skip == limit * (page - 1);
    if page <= tp {
      assert n > 0;
      MulMonotone(page - 1, tp - 1, limit);
      assert skip < n;
    } else {
      MulMonotone(tp, page - 1, limit);
      assert skip >= n;
    }
  }

  /**
   * With no filter every row of the table qualifies; with filters, `search` must occur in the name
   * or the description and `filterByName` in the name, ignoring case.
   */
  lemma FilterMeaning(rows: seq<Category>, q: CategoryQuery)
    ensures !Truthy(q.search) && !Truthy(q.filterByName) ==> Matching(rows, q) == rows
    ensures forall c :: c in Matching(rows, q) ==> c in rows
    ensures forall c :: c in Matching(rows, q) && Truthy(q.search) ==>
      ContainsInsensitive(c.name, q.search.value) || ContainsInsensitive(c.description, q.search.value)
    ensures forall c :: c in Matching(rows, q) && Truthy(q.filterByName) ==> ContainsInsensitive(c.name, q.filterByName.value)
    ensures forall c :: c in rows && Qualifies(c, q.search, q.filterByName) ==> c in Matching(rows, q)
  {
    if !Truthy(q.search) && !Truthy(q.filterByName) {
      FilterAll(rows, c => Qualifies(c, q.search, q.filterByName));
    }
  }

  lemma {:induction false} FilterAll(rows: seq<Category>, keep: Category -> bool)
    requires forall c :: keep(c)
    ensures Filter(rows, keep) == rows
  {
    if rows != [] {
      FilterAll(rows[1..], keep);
    }
  }

  /**
   * A query the common DTO has validated is within the listing's bounds; its default `sortBy`,
   * `createdAt`, is not on the whitelist and so sorts by name.
   */
  lemma ValidatedQueryInBounds(input: QueryBase.QueryBaseInput, filterByName: Option<string>)
    requires QueryBase.Validate(input).Ok?
    ensures QueryInBounds(FromBase(QueryBase.Validate(input).value, filterByName))
    ensures input.sortBy.None? ==> SortField(QueryBase.Validate(input).value.sortBy) == "name"
  {
  }

  // ---------------------------------------------------------------------------------------------
  // Lemmas about the table

  lemma {:induction false} CreateKeepsTableValid(t: Table, dto: CreateCategoryDto, newId: string)
    requires ValidTable(t)
    ensures ValidTable(CreateOutcome(t, dto, newId).table)
  {
    var r := CreateOutcome(t, dto, newId);
    if r.outcome.Ok? {
      var t' := r.table;
      forall a, b | a in t' && b in t' && a != b ensures t'[a].name != t'[b].name {
        if a == newId {
          assert t'[b] == t[b];
        } else if b == newId {
          assert t'[a] == t[a];
        }
      }
    }
  }

  lemma {:induction false} UpdateKeepsTableValid(t: Table, id: string, p: UpdateCategoryDto)
    requires ValidTable(t)
    ensures ValidTable(UpdateOutcome(t, id, p).table)
  {
    var r := UpdateOutcome(t, id, p);
    if r.outcome.Ok? {
      var t' := r.table;
      forall a, b | a in t' && b in t' && a != b ensures t'[a].name != t'[b].name {
        if a == id {
          assert t'[b] == t[b];
          assert p.name.Some? ==> !NameTakenByOther(t, p.name.value, id);
        } else if b == id {
          assert t'[a] == t[a];
          assert p.name.Some? ==> !NameTakenByOther(t, p.name.value, id);
        }
      }
    }
  }

  lemma RemoveKeepsTableValid(t: Table, id: string, referenced: bool)
    requires ValidTable(t)
    ensures ValidTable(RemoveOutcome(t, id, referenced).table)
  {
  }

  /** A created category can be found under its id; every other id finds what it found before. */
  lemma CreateThenFindOne(t: Table, dto: CreateCategoryDto, newId: string, other: string)
    requires CreateOutcome(t, dto, newId).outcome.Ok?
    requires other != newId
    ensures var r := CreateOutcome(t, dto, newId);
            && FindOneOutcome(r.table, newId) == r.outcome
            && FindOneOutcome(r.table, other) == FindOneOutcome(t, other)
  {
  }

  /** Renaming a category to its own current name is no conflict. */
  lemma {:induction false} RenameToOwnName(t: Table, id: string, p: UpdateCategoryDto)
    requires ValidTable(t)
    requires id in t && p.name == Some(t[id].name)
    ensures UpdateOutcome(t, id, p).outcome.Ok?
  {
  }

  /** Applying the same patch again changes nothing more. */
  lemma {:induction false} UpdateIdempotent(t: Table, id: string, p: UpdateCategoryDto)
    requires UpdateOutcome(t, id, p).outcome.Ok?
    ensures var first := UpdateOutcome(t, id, p);
            UpdateOutcome(first.table, id, p) == first
  {
    var first := UpdateOutcome(t, id, p);
    var t' := first.table;
    assert ApplyPatch(t'[id], p) == ApplyPatch(t[id], p);
    assert t'[id := ApplyPatch(t'[id], p)] == t';
  }

  /** After a removal the id is gone and every other row is as it was. */
  lemma RemoveThenFindOne(t: Table, id: string, other: string)
    requires RemoveOutcome(t, id, false).outcome.Ok?
    requires other != id
    ensures var t' := RemoveOutcome(t, id, false).table;
            && FindOneOutcome(t', id) == Err(NotFound, NotFoundMessage(id))
            && FindOneOutcome(t', other) == FindOneOutcome(t, other)
  {
  }
}
